/**
 * Turning a schedule request into the trigger the scheduler runs, moving its
 * start time into the requested time zone, and preparing the parameters of
 * PDI (transformation and job) files.
 */
module SchedulerResourceUtil {
  import opened Common
  import opened JavaText
  import opened FileNames
  import opened Triggers
  import opened JobScheduleRequests

  const RESERVED_BACKGROUND_EXECUTION_ACTION_ID := ".backgroundExecution"

  /** A run-in-background request fires this many milliseconds after the call. */
  const RUN_IN_BACKGROUND_DELAY := 10000

  const SECONDS_PER_DAY := 86400

  /** The proxy's cron string that asks for a generated "every N days" expression. */
  const TO_BE_GENERATED := "TO_BE_GENERATED"

  /** `ScheduleExportUtil.RUN_PARAMETERS_KEY`. */
  const RUN_PARAMETERS_KEY := "parameters"
  const VARIABLES_KEY := "variables"
  const DIRECTORY_KEY := "directory"
  const TRANSFORMATION_KEY := "transformation"
  const JOB_KEY := "job"

  // ---------------------------------------------------------------------------
  // Collaborators, passed in

  /** The wall-clock fields of a `Calendar` (month 0-based, as in Java). */
  datatype CalendarFields = CalendarFields(
    year: int, month: int, dayOfMonth: int, hourOfDay: int, minute: int, second: int, millisecond: int)

  /**
   * The time-zone database: the calendar fields of an instant in a zone, the
   * instant whose fields in a zone are the given ones (what a lenient
   * `GregorianCalendar` returns after `set`), and the JVM's default zone id.
   * An id the database does not know stands for GMT inside these functions.
   */
  datatype ZoneTable = ZoneTable(
    defaultId: string,
    fieldsIn: (Instant, string) -> CalendarFields,
    instantAt: (CalendarFields, string) -> Instant)

  /** The fields of an instant in the server's default zone (`Calendar.getInstance()`). */
  function ServerFields(zones: ZoneTable, t: Instant): CalendarFields
  {
    zones.fieldsIn(t, zones.defaultId)
  }

  /** Whether the scheduler is the Quartz scheduler, the only one that takes raw cron triggers. */
  datatype SchedulerKind = QuartzScheduler | OtherScheduler

  /**
   * The platform the conversion runs on: the clock, the zone table, the cron
   * builder's rendering of an expression and Quartz's cron compiler
   * (`QuartzScheduler.createComplexTrigger`), which may reject a string.
   */
  datatype Platform = Platform(
    now: Instant,
    zones: ZoneTable,
    renderCron: QuartzCron -> string,
    createComplexTrigger: string -> Result<ComplexJobTrigger, string>)

  /** The exceptions the conversion lets escape. */
  datatype SchedulingError =
    | IllegalArgument             // a cron trigger for a scheduler that is not Quartz
    | NullPointer                 // a required start time, cron string, zone id or file is null
    | IndexOutOfBounds            // a day or week number with no enumeration value
    | SchedulerException(message: string)  // the cron compiler rejected the expression

  // ---------------------------------------------------------------------------
  // Java integer arithmetic

  const TWO_TO_THE_31 := 0x8000_0000
  const TWO_TO_THE_32 := 0x1_0000_0000

  /** The `(int)` cast of a `long`: keep the low 32 bits, as a signed value. */
  function JavaIntCast(x: int): (r: int)
    ensures -TWO_TO_THE_31 <= r < TWO_TO_THE_31
    ensures (x - r) % TWO_TO_THE_32 == 0
    ensures -TWO_TO_THE_31 <= x < TWO_TO_THE_31 ==> r == x
  {
    (x + TWO_TO_THE_31) % TWO_TO_THE_32 - TWO_TO_THE_31
  }

  /** Java's `/` on integers, which truncates toward zero. */
  function JavaDivide(a: int, b: int): int
    requires b > 0
  {
    if a >= 0 then a / b else -((-a) / b)
  }

  /** `(int)proxyTrigger.getRepeatInterval()/86400`: the cast binds first, then the quotient is truncated. */
  function DayInterval(repeatInterval: int): (days: int)
    ensures -24855 <= days <= 24855
    ensures (0 <= JavaIntCast(repeatInterval) ==> 0 <= days) && (JavaIntCast(repeatInterval) < 0 ==> days <= 0)
  {
    JavaDivide(JavaIntCast(repeatInterval), SECONDS_PER_DAY)
  }

  /**
   * The generated interval is the number of whole days in the repeat interval
   * (as a 32-bit value), rounded toward zero: a remainder of less than a day is dropped.
   */
  lemma DayIntervalRoundsTowardZero(repeatInterval: int)
    ensures var x, d := JavaIntCast(repeatInterval), DayInterval(repeatInterval);
      && (0 <= x ==> SECONDS_PER_DAY * d <= x < SECONDS_PER_DAY * (d + 1))
      && (x < 0 ==> SECONDS_PER_DAY * (d - 1) < x <= SECONDS_PER_DAY * d)
      && (-TWO_TO_THE_31 <= repeatInterval < TWO_TO_THE_31 ==> x == repeatInterval)
  {
    var x := JavaIntCast(repeatInterval);
    if x < 0 {
      var q := (-x) / SECONDS_PER_DAY;
      assert SECONDS_PER_DAY * q <= -x < SECONDS_PER_DAY * (q + 1);
    }
  }

  // ---------------------------------------------------------------------------
  // Calendar expansion of a complex trigger

  /**
   * A week-of-month value the conversion accepts: `LAST_WEEK_OF_MONTH`, which
   * is not looked up, or an ordinal of the qualifier enumeration.
   */
  predicate IsWeekOfMonth(weekOfMonth: int)
  {
    weekOfMonth == LAST_WEEK_OF_MONTH || 0 <= weekOfMonth < QUALIFIER_COUNT
  }

  /**
   * The qualifier for a week-of-month value: `LAST_WEEK_OF_MONTH` (4) is
   * special-cased to LAST, and any other week is looked up by ordinal. So 5
   * gives LAST as well, and FIFTH, whose ordinal is 4, never comes out.
   */
  function QualifierFor(weekOfMonth: int): (q: DayOfWeekQualifier)
    requires IsWeekOfMonth(weekOfMonth)
    ensures weekOfMonth != LAST_WEEK_OF_MONTH ==> QualifierOrdinal(q) == weekOfMonth
    ensures q == LAST <==> weekOfMonth == LAST_WEEK_OF_MONTH || weekOfMonth == QUALIFIER_COUNT - 1
    ensures q != FIFTH
  {
    if weekOfMonth == LAST_WEEK_OF_MONTH then LAST else QualifierAt(weekOfMonth)
  }

  /**
   * What the enumeration lookups need: when both lists are used, every day is
   * 0..6 and every week is a week of the month (0..5).
   */
  predicate DayOfWeekInputsInRange(daysOfWeek: seq<int>, weeksOfMonth: seq<int>)
  {
    |daysOfWeek| > 0 && |weeksOfMonth| > 0 ==>
      && (forall i :: 0 <= i < |daysOfWeek| ==> 0 <= daysOfWeek[i] <= 6)
      && (forall j :: 0 <= j < |weeksOfMonth| ==> IsWeekOfMonth(weeksOfMonth[j]))
  }

  predicate AllDaysOfWeek(days: seq<int>)
  {
    forall i :: 0 <= i < |days| ==> 0 <= days[i] <= 6
  }

  predicate AllWeeksOfMonth(weeks: seq<int>)
  {
    forall j :: 0 <= j < |weeks| ==> IsWeekOfMonth(weeks[j])
  }

  /** One qualified recurrence of `day` per week of the month, in the order of the weeks. */
  function QualifiedRow(day: int, weeks: seq<int>): seq<DayOfWeekRecurrence>
    requires 0 <= day <= 6 && AllWeeksOfMonth(weeks)
  {
    seq(|weeks|, j requires 0 <= j < |weeks| => QualifiedDayOfWeek(DayOfWeekAt(day), QualifierFor(weeks[j])))
  }

  /** A row one week longer ends in that week's qualified day. */
  lemma QualifiedRowSnoc(day: int, weeks: seq<int>, j: int)
    requires 0 <= day <= 6 && 0 <= j < |weeks| && AllWeeksOfMonth(weeks[..j + 1])
    ensures AllWeeksOfMonth(weeks[..j])
    ensures QualifiedRow(day, weeks[..j + 1])
         == (if j == 0 then [] else QualifiedRow(day, weeks[..j])) + [QualifiedDayOfWeek(DayOfWeekAt(day), QualifierFor(weeks[j]))]
  {
    assert forall k :: 0 <= k < j ==> weeks[..j][k] == weeks[..j + 1][k];
  }

  /** The qualified recurrences of every (day, week) pair, days outer and weeks inner. */
  function QualifiedRecurrences(days: seq<int>, weeks: seq<int>): (r: seq<DayOfWeekRecurrence>)
    requires AllDaysOfWeek(days) && AllWeeksOfMonth(weeks)
    ensures |r| == |days| * |weeks|
  {
    if days == [] then []
    else QualifiedRecurrences(days[..|days| - 1], weeks) + QualifiedRow(days[|days| - 1], weeks)
  }

  /** a <= b implies a * c <= b * c for natural c. */
  lemma {:induction false} MultiplyMonotone(a: nat, b: nat, c: nat)
    requires a <= b
    ensures a * c <= b * c
  {
    if a < b {
      MultiplyMonotone(a, b - 1, c);
      assert (b - 1) * c + c == b * c;
    }
  }

  /**
   * The cross product laid out flat: the recurrence for the i-th day and the
   * j-th week is at position i * |weeks| + j.
   */
  lemma {:induction false} QualifiedRecurrenceAt(days: seq<int>, weeks: seq<int>, i: int, j: int)
    requires AllDaysOfWeek(days) && AllWeeksOfMonth(weeks)
    requires 0 <= i < |days| && 0 <= j < |weeks|
    ensures 0 <= i * |weeks| + j < |QualifiedRecurrences(days, weeks)|
    ensures QualifiedRecurrences(days, weeks)[i * |weeks| + j]
         == QualifiedDayOfWeek(DayOfWeekAt(days[i]), QualifierFor(weeks[j]))
  {
    var n, w := |days| - 1, |weeks|;
    var prefix := days[..n];
    assert QualifiedRecurrences(days, weeks) == QualifiedRecurrences(prefix, weeks) + QualifiedRow(days[n], weeks);
    MultiplyMonotone(i + 1, n + 1, w);
    if i < n {
      QualifiedRecurrenceAt(prefix, weeks, i, j);
      MultiplyMonotone(i + 1, n, w);
      assert prefix[i] == days[i];
    } else {
      assert i * w + j == |QualifiedRecurrences(prefix, weeks)| + j;
    }
  }

  /** Java's `x + 1` on an `int`, which wraps from the largest value to the smallest. */
  function JavaIntIncrement(x: int): int
  {
    JavaIntCast(x + 1)
  }

  /** `addDayOfWeekRecurrence(dayOfWeek + 1)` for each day: 1-based day numbers. */
  function DayNumbers(days: seq<int>): seq<DayOfWeekRecurrence>
  {
    seq(|days|, k requires 0 <= k < |days| => DayNumber(JavaIntIncrement(days[k])))
  }

  /** `addMonthlyRecurrence(month + 1)` for each month: 1-based month numbers. */
  function MonthNumbers(months: seq<int>): seq<int>
  {
    seq(|months|, k requires 0 <= k < |months| => JavaIntIncrement(months[k]))
  }

  /** The increment is `x + 1` on every `int` but the largest, which wraps to the smallest. */
  lemma JavaIntIncrementWraps(x: int)
    requires -TWO_TO_THE_31 <= x < TWO_TO_THE_31
    ensures x < TWO_TO_THE_31 - 1 ==> JavaIntIncrement(x) == x + 1
    ensures x == TWO_TO_THE_31 - 1 ==> JavaIntIncrement(x) == -TWO_TO_THE_31
  {
  }

  /**
   * The recurrences of the explicit complex mode: the days of the week
   * (qualified by the weeks of the month, or as plain day numbers), else the
   * days of the month, then the months and the years.
   */
  function CalendarRecurrences(daysOfWeek: seq<int>, weeksOfMonth: seq<int>, daysOfMonth: seq<int>,
                               monthsOfYear: seq<int>, years: seq<int>): ComplexJobTrigger
    requires DayOfWeekInputsInRange(daysOfWeek, weeksOfMonth)
  {
    EmptyComplexJobTrigger.(
      dayOfWeekRecurrences :=
        if |daysOfWeek| == 0 then []
        else if |weeksOfMonth| > 0 then QualifiedRecurrences(daysOfWeek, weeksOfMonth)
        else DayNumbers(daysOfWeek),
      dayOfMonthRecurrences := if |daysOfWeek| == 0 then daysOfMonth else [],
      monthlyRecurrences := MonthNumbers(monthsOfYear),
      yearlyRecurrences := years)
  }

  /** The explicit mode's recurrences, or the lookup of a day or week number that has no enumeration value. */
  function CalendarRecurrencesChecked(daysOfWeek: seq<int>, weeksOfMonth: seq<int>, daysOfMonth: seq<int>,
                                      monthsOfYear: seq<int>, years: seq<int>): Result<ComplexJobTrigger, SchedulingError>
  {
    if DayOfWeekInputsInRange(daysOfWeek, weeksOfMonth)
    then Ok(CalendarRecurrences(daysOfWeek, weeksOfMonth, daysOfMonth, monthsOfYear, years))
    else Err(IndexOutOfBounds)
  }

  /** With days and weeks: exactly one qualified day per pair, week 4 meaning LAST; days of the month are ignored. */
  lemma ExplicitQualifiedDaysOfWeek(daysOfWeek: seq<int>, weeksOfMonth: seq<int>, daysOfMonth: seq<int>,
                                    monthsOfYear: seq<int>, years: seq<int>)
    requires |daysOfWeek| > 0 && |weeksOfMonth| > 0
    requires DayOfWeekInputsInRange(daysOfWeek, weeksOfMonth)
    ensures var t := CalendarRecurrences(daysOfWeek, weeksOfMonth, daysOfMonth, monthsOfYear, years);
      && |t.dayOfWeekRecurrences| == |daysOfWeek| * |weeksOfMonth|
      && t.dayOfMonthRecurrences == []
      && forall i, j :: 0 <= i < |daysOfWeek| && 0 <= j < |weeksOfMonth| ==>
           0 <= i * |weeksOfMonth| + j < |t.dayOfWeekRecurrences|
           && t.dayOfWeekRecurrences[i * |weeksOfMonth| + j]
              == QualifiedDayOfWeek(DayOfWeekAt(daysOfWeek[i]),
                                    if weeksOfMonth[j] == LAST_WEEK_OF_MONTH then LAST else QualifierAt(weeksOfMonth[j]))
  {
    forall i, j | 0 <= i < |daysOfWeek| && 0 <= j < |weeksOfMonth|
      ensures 0 <= i * |weeksOfMonth| + j < |QualifiedRecurrences(daysOfWeek, weeksOfMonth)|
      ensures QualifiedRecurrences(daysOfWeek, weeksOfMonth)[i * |weeksOfMonth| + j]
           == QualifiedDayOfWeek(DayOfWeekAt(daysOfWeek[i]), QualifierFor(weeksOfMonth[j]))
    {
      QualifiedRecurrenceAt(daysOfWeek, weeksOfMonth, i, j);
    }
  }

  /**
   * Days of the week qualified by weeks of the month fail exactly when a day
   * is outside 0..6 or a week outside 0..5; without weeks, or without days,
   * no number is looked up and nothing fails.
   */
  lemma ExplicitModeFailsOnlyOnLookup(daysOfWeek: seq<int>, weeksOfMonth: seq<int>, daysOfMonth: seq<int>,
                                      monthsOfYear: seq<int>, years: seq<int>)
    ensures var r := CalendarRecurrencesChecked(daysOfWeek, weeksOfMonth, daysOfMonth, monthsOfYear, years);
      && (r.Err? ==> r.error == IndexOutOfBounds)
      && (r.Err? <==>
            && |daysOfWeek| > 0 && |weeksOfMonth| > 0
            && ((exists i :: 0 <= i < |daysOfWeek| && !(0 <= daysOfWeek[i] <= 6)) ||
                (exists j :: 0 <= j < |weeksOfMonth| && !IsWeekOfMonth(weeksOfMonth[j]))))
  {
  }

  /** With days but no weeks: each day once, as its 1-based number; days of the month are ignored. */
  lemma ExplicitPlainDaysOfWeek(daysOfWeek: seq<int>, daysOfMonth: seq<int>, monthsOfYear: seq<int>, years: seq<int>)
    requires |daysOfWeek| > 0
    ensures var t := CalendarRecurrences(daysOfWeek, [], daysOfMonth, monthsOfYear, years);
      && |t.dayOfWeekRecurrences| == |daysOfWeek|
      && (forall k :: 0 <= k < |daysOfWeek| ==> t.dayOfWeekRecurrences[k] == DayNumber(JavaIntIncrement(daysOfWeek[k])))
      && (forall k :: 0 <= k < |daysOfWeek| && -TWO_TO_THE_31 <= daysOfWeek[k] < TWO_TO_THE_31 - 1 ==>
            t.dayOfWeekRecurrences[k] == DayNumber(daysOfWeek[k] + 1))
      && t.dayOfMonthRecurrences == []
  {
  }

  /** Without days of the week: no day-of-week recurrence, and the days of the month unchanged, in order. */
  lemma ExplicitDaysOfMonth(weeksOfMonth: seq<int>, daysOfMonth: seq<int>, monthsOfYear: seq<int>, years: seq<int>)
    ensures var t := CalendarRecurrences([], weeksOfMonth, daysOfMonth, monthsOfYear, years);
      t.dayOfWeekRecurrences == [] && t.dayOfMonthRecurrences == daysOfMonth
  {
  }

  /** Months always become 1-based and years are kept, in order. */
  lemma ExplicitMonthsAndYears(daysOfWeek: seq<int>, weeksOfMonth: seq<int>, daysOfMonth: seq<int>,
                               monthsOfYear: seq<int>, years: seq<int>)
    requires DayOfWeekInputsInRange(daysOfWeek, weeksOfMonth)
    ensures var t := CalendarRecurrences(daysOfWeek, weeksOfMonth, daysOfMonth, monthsOfYear, years);
      && |t.monthlyRecurrences| == |monthsOfYear|
      && (forall k :: 0 <= k < |monthsOfYear| ==> t.monthlyRecurrences[k] == JavaIntIncrement(monthsOfYear[k]))
      && (forall k :: 0 <= k < |monthsOfYear| && -TWO_TO_THE_31 <= monthsOfYear[k] < TWO_TO_THE_31 - 1 ==>
            t.monthlyRecurrences[k] == monthsOfYear[k] + 1)
      && t.yearlyRecurrences == years
  {
  }

  /**
   * The inner loop over the weeks of the month for one day: one qualified
   * day per week, or the exception of the first lookup of a day or week
   * number with no enumeration value.
   */
  method AddQualifiedRow(day: int, weeksOfMonth: seq<int>) returns (r: Result<seq<DayOfWeekRecurrence>, SchedulingError>)
    requires |weeksOfMonth| > 0
    ensures r == if 0 <= day <= 6 && AllWeeksOfMonth(weeksOfMonth)
                 then Ok(QualifiedRow(day, weeksOfMonth)) else Err(IndexOutOfBounds)
  {
    var row: seq<DayOfWeekRecurrence> := [];
    var j := 0;
    while j < |weeksOfMonth|
      invariant 0 <= j <= |weeksOfMonth|
      invariant j > 0 ==> 0 <= day <= 6
      invariant AllWeeksOfMonth(weeksOfMonth[..j])
      invariant row == if j == 0 then [] else QualifiedRow(day, weeksOfMonth[..j])
    {
      if !(0 <= day <= 6) || !IsWeekOfMonth(weeksOfMonth[j]) {
        // `DayOfWeek.values()[dayOfWeek]` or `DayOfWeekQualifier.values()[weekOfMonth]`
        return Err(IndexOutOfBounds);
      }
      var qualifier := if weeksOfMonth[j] == LAST_WEEK_OF_MONTH then LAST else QualifierAt(weeksOfMonth[j]);
      QualifiedRowSnoc(day, weeksOfMonth, j);
      row := row + [QualifiedDayOfWeek(DayOfWeekAt(day), qualifier)];
      j := j + 1;
    }
    assert weeksOfMonth[..j] == weeksOfMonth;
    r := Ok(row);
  }

  /**
   * The outer loop over the days of the week: the rows of every day in turn,
   * or the exception of the first failing lookup.
   */
  method AddQualifiedDaysOfWeek(daysOfWeek: seq<int>, weeksOfMonth: seq<int>)
    returns (r: Result<seq<DayOfWeekRecurrence>, SchedulingError>)
    requires |daysOfWeek| > 0 && |weeksOfMonth| > 0
    ensures r == if AllDaysOfWeek(daysOfWeek) && AllWeeksOfMonth(weeksOfMonth)
                 then Ok(QualifiedRecurrences(daysOfWeek, weeksOfMonth)) else Err(IndexOutOfBounds)
  {
    var dayOfWeek: seq<DayOfWeekRecurrence> := [];
    var i := 0;
    while i < |daysOfWeek|
      invariant 0 <= i <= |daysOfWeek|
      invariant AllDaysOfWeek(daysOfWeek[..i])
      invariant i > 0 ==> AllWeeksOfMonth(weeksOfMonth)
      invariant dayOfWeek == if i == 0 then [] else QualifiedRecurrences(daysOfWeek[..i], weeksOfMonth)
    {
      var row := AddQualifiedRow(daysOfWeek[i], weeksOfMonth);
      if row.Err? {
        assert !AllDaysOfWeek(daysOfWeek) || !AllWeeksOfMonth(weeksOfMonth);
        return Err(row.error);
      }
      assert daysOfWeek[..i + 1] == daysOfWeek[..i] + [daysOfWeek[i]];
      assert daysOfWeek[..i + 1][..i] == daysOfWeek[..i];
      dayOfWeek := dayOfWeek + row.value;
      i := i + 1;
    }
    assert daysOfWeek[..i] == daysOfWeek;
    r := Ok(dayOfWeek);
  }

  /**
   * The explicit mode's nested loops of `add*Recurrence` calls, one call per
   * entry, appending to the trigger's lists; the first day or week number
   * with no enumeration value ends the loop with an exception.
   */
  method BuildCalendarRecurrences(daysOfWeek: seq<int>, weeksOfMonth: seq<int>, daysOfMonth: seq<int>,
                                  monthsOfYear: seq<int>, years: seq<int>)
    returns (r: Result<ComplexJobTrigger, SchedulingError>)
    ensures r == CalendarRecurrencesChecked(daysOfWeek, weeksOfMonth, daysOfMonth, monthsOfYear, years)
  {
    var dayOfWeek: seq<DayOfWeekRecurrence> := [];
    var dayOfMonth: seq<int> := [];
    if |daysOfWeek| > 0 {
      if |weeksOfMonth| > 0 {
        var qualified := AddQualifiedDaysOfWeek(daysOfWeek, weeksOfMonth);
        if qualified.Err? {
          return Err(qualified.error);
        }
        dayOfWeek := qualified.value;
      } else {
        var i := 0;
        while i < |daysOfWeek|
          invariant 0 <= i <= |daysOfWeek|
          invariant dayOfWeek == DayNumbers(daysOfWeek[..i])
        {
          dayOfWeek := dayOfWeek + [DayNumber(JavaIntIncrement(daysOfWeek[i]))];
          i := i + 1;
        }
        assert daysOfWeek[..i] == daysOfWeek;
      }
    } else if |daysOfMonth| > 0 {
      var i := 0;
      while i < |daysOfMonth|
        invariant 0 <= i <= |daysOfMonth|
        invariant dayOfMonth == daysOfMonth[..i]
      {
        dayOfMonth := dayOfMonth + [daysOfMonth[i]];
        i := i + 1;
      }
    }
    var monthly: seq<int> := [];
    var i := 0;
    while i < |monthsOfYear|
      invariant 0 <= i <= |monthsOfYear|
      invariant monthly == MonthNumbers(monthsOfYear[..i])
    {
      monthly := monthly + [JavaIntIncrement(monthsOfYear[i])];
      i := i + 1;
    }
    assert monthsOfYear[..i] == monthsOfYear;
    var yearly: seq<int> := [];
    i := 0;
    while i < |years|
      invariant 0 <= i <= |years|
      invariant yearly == years[..i]
    {
      yearly := yearly + [years[i]];
      i := i + 1;
    }
    assert DayOfWeekInputsInRange(daysOfWeek, weeksOfMonth);
    ghost var expected := CalendarRecurrences(daysOfWeek, weeksOfMonth, daysOfMonth, monthsOfYear, years);
    assert dayOfWeek == expected.dayOfWeekRecurrences;
    assert dayOfMonth == expected.dayOfMonthRecurrences;
    assert monthly == expected.monthlyRecurrences;
    assert yearly == expected.yearlyRecurrences;
    r := Ok(EmptyComplexJobTrigger.(
      dayOfWeekRecurrences := dayOfWeek, dayOfMonthRecurrences := dayOfMonth,
      monthlyRecurrences := monthly, yearlyRecurrences := yearly));
  }

  /**
   * `generateCronString`: second 0, minute and hour of the start time in the
   * server's zone, every `interval` days of the month, every month, any day
   * of the week, every year.
   */
  function GenerateCronString(interval: int, startDate: Instant, zones: ZoneTable): QuartzCron
  {
    var fields := ServerFields(zones, startDate);
    QuartzCron(On(0), On(fields.minute), On(fields.hourOfDay), Every(interval), Always, QuestionMark, Always)
  }

  /**
   * The complex branch of the conversion: a generated daily cron expression
   * or the explicit calendar at the start time's hour and minute, then the
   * proxy's start and end, the request's duration and the proxy's
   * pass-through parameter. A missing start time fails when its calendar
   * fields are read, which in the explicit mode is after the lists.
   */
  function ComplexTriggerFor(proxy: ComplexJobTriggerProxy, duration: int, platform: Platform)
    : Result<ComplexJobTrigger, SchedulingError>
    reads proxy
  {
    var core :=
      if proxy.cronString == Some(TO_BE_GENERATED) then
        if proxy.startTime.None? then Err(NullPointer)
        else
          match platform.createComplexTrigger(
            platform.renderCron(GenerateCronString(DayInterval(proxy.repeatInterval), proxy.startTime.value, platform.zones)))
          case Ok(t) => Ok(t)
          case Err(message) => Err(SchedulerException(message))
      else
        match CalendarRecurrencesChecked(proxy.daysOfWeek, proxy.weeksOfMonth, proxy.daysOfMonth,
                                         proxy.monthsOfYear, proxy.years)
        case Err(e) => Err(e)
        case Ok(t) =>
          if proxy.startTime.None? then Err(NullPointer)
          else
            var fields := ServerFields(platform.zones, proxy.startTime.value);
            Ok(t.(hourlyRecurrence := Some(fields.hourOfDay), minuteRecurrence := Some(fields.minute)));
    match core
    case Ok(t) => Ok(t.(startTime := proxy.startTime, endTime := proxy.endTime,
                        duration := duration, uiPassParam := proxy.uiPassParam))
    case Err(e) => Err(e)
  }

  /**
   * In both complex modes the result carries the proxy's start and end, the
   * request's duration and the proxy's parameter, and needs a start time;
   * the explicit mode fails only on a start time or a lookup, and runs at
   * the start time's hour and minute in the server's zone.
   */
  lemma ComplexTriggerStamped(proxy: ComplexJobTriggerProxy, duration: int, platform: Platform)
    ensures var r := ComplexTriggerFor(proxy, duration, platform);
      && (proxy.startTime.None? && proxy.cronString == Some(TO_BE_GENERATED) ==> r == Err(NullPointer))
      && (r.Ok? ==> proxy.startTime.Some?)
      && (proxy.cronString != Some(TO_BE_GENERATED) ==>
            var lists := CalendarRecurrencesChecked(proxy.daysOfWeek, proxy.weeksOfMonth, proxy.daysOfMonth,
                                                    proxy.monthsOfYear, proxy.years);
            && (lists.Err? ==> r == Err(IndexOutOfBounds))
            && (lists.Ok? && proxy.startTime.None? ==> r == Err(NullPointer))
            && (lists.Ok? && proxy.startTime.Some? ==>
                  var fields := ServerFields(platform.zones, proxy.startTime.value);
                  r == Ok(lists.value.(hourlyRecurrence := Some(fields.hourOfDay), minuteRecurrence := Some(fields.minute),
                                       startTime := proxy.startTime, endTime := proxy.endTime,
                                       duration := duration, uiPassParam := proxy.uiPassParam))))
      && (r.Ok? ==> r.value.startTime == proxy.startTime && r.value.endTime == proxy.endTime
                    && r.value.duration == duration && r.value.uiPassParam == proxy.uiPassParam)
  {
  }

  /**
   * The generated mode compiles the rendering of the daily expression and
   * ignores the day, week, month and year lists: two proxies that differ only
   * in those give the same trigger.
   */
  lemma GeneratedModeIgnoresCalendarLists(p: ComplexJobTriggerProxy, q: ComplexJobTriggerProxy,
                                          duration: int, platform: Platform)
    requires p.cronString == q.cronString == Some(TO_BE_GENERATED)
    requires p.startTime == q.startTime && p.endTime == q.endTime
    requires p.repeatInterval == q.repeatInterval && p.uiPassParam == q.uiPassParam
    ensures ComplexTriggerFor(p, duration, platform) == ComplexTriggerFor(q, duration, platform)
    ensures p.startTime.Some? ==>
      var fields := ServerFields(platform.zones, p.startTime.value);
      var cron := GenerateCronString(DayInterval(p.repeatInterval), p.startTime.value, platform.zones);
      && cron == QuartzCron(On(0), On(fields.minute), On(fields.hourOfDay), Every(DayInterval(p.repeatInterval)),
                            Always, QuestionMark, Always)
      && match platform.createComplexTrigger(platform.renderCron(cron))
         case Ok(t) => ComplexTriggerFor(p, duration, platform)
                       == Ok(t.(startTime := p.startTime, endTime := p.endTime, duration := duration, uiPassParam := p.uiPassParam))
         case Err(m) => ComplexTriggerFor(p, duration, platform) == Err(SchedulerException(m))
  {
  }

  /** The complex branch as the source runs it, with its loops. */
  method ConvertComplexJobTrigger(proxy: ComplexJobTriggerProxy, duration: int, platform: Platform)
    returns (r: Result<ComplexJobTrigger, SchedulingError>)
    ensures r == ComplexTriggerFor(proxy, duration, platform)
  {
    var complexJobTrigger: ComplexJobTrigger;
    if proxy.cronString == Some(TO_BE_GENERATED) {
      if proxy.startTime.None? {
        return Err(NullPointer);
      }
      var cronString := platform.renderCron(GenerateCronString(DayInterval(proxy.repeatInterval), proxy.startTime.value, platform.zones));
      var compiled := platform.createComplexTrigger(cronString);
      if compiled.Err? {
        return Err(SchedulerException(compiled.error));
      }
      complexJobTrigger := compiled.value;
    } else {
      var built := BuildCalendarRecurrences(proxy.daysOfWeek, proxy.weeksOfMonth, proxy.daysOfMonth,
                                            proxy.monthsOfYear, proxy.years);
      if built.Err? {
        return Err(built.error);
      }
      if proxy.startTime.None? {
        // `calendar.setTime(null)`
        return Err(NullPointer);
      }
      var fields := ServerFields(platform.zones, proxy.startTime.value);
      complexJobTrigger := built.value.(hourlyRecurrence := Some(fields.hourOfDay), minuteRecurrence := Some(fields.minute));
    }
    r := Ok(complexJobTrigger.(startTime := proxy.startTime, endTime := proxy.endTime,
                               duration := duration, uiPassParam := proxy.uiPassParam));
  }

  // ---------------------------------------------------------------------------
  // Raw cron triggers

  /** A cron string with fewer than 7 space-separated tokens gets one more field, `*`. */
  function PadCronString(cronString: string): string
  {
    if |SplitOnSpaces(cronString)| < 7 then cronString + " *" else cronString
  }

  /** Fields joined by single spaces: fewer than 7 gain exactly one trailing `*` field. */
  lemma {:induction false} PadCronStringAddsField(fields: seq<string>)
    requires 1 <= |fields| < 7
    requires forall k :: 0 <= k < |fields| ==> IsField(fields[k])
    ensures PadCronString(JoinWithSpaces(fields)) == JoinWithSpaces(fields + ["*"])
    ensures SplitOnSpaces(PadCronString(JoinWithSpaces(fields))) == fields + ["*"]
  {
    var s := JoinWithSpaces(fields);
    SplitJoinRoundTrip(fields);
    assert PadCronString(s) == s + " *";
    JoinAppend(fields, "*");
    var padded := fields + ["*"];
    assert forall k :: 0 <= k < |padded| ==> IsField(padded[k]) by {
      assert ' ' !in "*";
    }
    SplitJoinRoundTrip(padded);
  }

  /** Seven or more fields are left as they are. */
  lemma {:induction false} PadCronStringKeepsSevenFields(fields: seq<string>)
    requires |fields| >= 7
    requires forall k :: 0 <= k < |fields| ==> IsField(fields[k])
    ensures PadCronString(JoinWithSpaces(fields)) == JoinWithSpaces(fields)
  {
    SplitJoinRoundTrip(fields);
  }

  /** The cron branch: only Quartz takes raw cron triggers; the trigger's own start, end, duration and parameter are kept. */
  function CronTriggerFor(cron: CronJobTrigger, scheduler: SchedulerKind, platform: Platform)
    : Result<ComplexJobTrigger, SchedulingError>
    reads cron
  {
    if scheduler != QuartzScheduler then Err(IllegalArgument)
    else if cron.cronString.None? then Err(NullPointer)
    else
      match platform.createComplexTrigger(PadCronString(cron.cronString.value))
      case Err(message) => Err(SchedulerException(message))
      case Ok(t) => Ok(t.(startTime := cron.startTime, endTime := cron.endTime,
                          duration := cron.duration, uiPassParam := cron.uiPassParam))
  }

  /**
   * A scheduler other than Quartz refuses every cron trigger. With Quartz, a
   * null cron string is a null pointer; otherwise the result is exactly what
   * Quartz makes of the padded string: its refusal as a scheduler exception,
   * or its trigger stamped with the cron trigger's own values.
   */
  lemma CronTriggerOutcome(cron: CronJobTrigger, scheduler: SchedulerKind, platform: Platform)
    ensures scheduler == OtherScheduler ==> CronTriggerFor(cron, scheduler, platform) == Err(IllegalArgument)
    ensures scheduler == QuartzScheduler && cron.cronString.None? ==>
      CronTriggerFor(cron, scheduler, platform) == Err(NullPointer)
    ensures scheduler == QuartzScheduler && cron.cronString.Some? ==>
      CronTriggerFor(cron, scheduler, platform) ==
        match platform.createComplexTrigger(PadCronString(cron.cronString.value))
        case Ok(t) => Ok(t.(startTime := cron.startTime, endTime := cron.endTime,
                            duration := cron.duration, uiPassParam := cron.uiPassParam))
        case Err(message) => Err(SchedulerException(message))
    ensures var r := CronTriggerFor(cron, scheduler, platform);
      r.Ok? ==> && scheduler == QuartzScheduler && cron.cronString.Some?
                && platform.createComplexTrigger(PadCronString(cron.cronString.value)).Ok?
                && r.value.startTime == cron.startTime && r.value.endTime == cron.endTime
                && r.value.duration == cron.duration && r.value.uiPassParam == cron.uiPassParam
  {
  }

  function AsCalendarTrigger(r: Result<ComplexJobTrigger, SchedulingError>): Result<JobTrigger, SchedulingError>
  {
    match r
    case Ok(t) => Ok(CalendarTrigger(t))
    case Err(e) => Err(e)
  }

  // ---------------------------------------------------------------------------
  // The conversion

  /**
   * `convertScheduleRequestToJobTrigger`: no trigger means run in background
   * ten seconds from now; otherwise the simple trigger (given a start time if
   * it has none), else the complex one, else the cron one.
   */
  method ConvertScheduleRequestToJobTrigger(request: JobScheduleRequest, scheduler: SchedulerKind, platform: Platform)
    returns (r: Result<JobTrigger, SchedulingError>)
    modifies (if request.simpleJobTrigger == null then {} else {request.simpleJobTrigger})`startTime
    ensures request.simpleJobTrigger == null && request.complexJobTrigger == null && request.cronJobTrigger == null ==>
      && r.Ok? && r.value.SimpleTrigger? && fresh(r.value.simple)
      && r.value.simple.startTime == Some(platform.now + RUN_IN_BACKGROUND_DELAY)
      && r.value.simple.endTime == None
      && r.value.simple.repeatCount == 0 && r.value.simple.repeatInterval == 0
    ensures request.simpleJobTrigger != null ==>
      && r == Ok(SimpleTrigger(request.simpleJobTrigger))
      && request.simpleJobTrigger.startTime
         == (if old(request.simpleJobTrigger.startTime).None? then Some(platform.now) else old(request.simpleJobTrigger.startTime))
      && request.simpleJobTrigger.endTime == old(request.simpleJobTrigger.endTime)
      && request.simpleJobTrigger.repeatCount == old(request.simpleJobTrigger.repeatCount)
      && request.simpleJobTrigger.repeatInterval == old(request.simpleJobTrigger.repeatInterval)
      && request.simpleJobTrigger.uiPassParam == old(request.simpleJobTrigger.uiPassParam)
    ensures request.simpleJobTrigger == null && request.complexJobTrigger != null ==>
      r == AsCalendarTrigger(ComplexTriggerFor(request.complexJobTrigger, request.duration, platform))
    ensures request.simpleJobTrigger == null && request.complexJobTrigger == null && request.cronJobTrigger != null ==>
      r == AsCalendarTrigger(CronTriggerFor(request.cronJobTrigger, scheduler, platform))
  {
    var runInBackground :=
      request.simpleJobTrigger == null && request.complexJobTrigger == null && request.cronJobTrigger == null;
    if runInBackground {
      var t := new SimpleJobTrigger(Some(platform.now + RUN_IN_BACKGROUND_DELAY), None, 0, 0);
      r := Ok(SimpleTrigger(t));
    } else if request.simpleJobTrigger != null {
      var simpleJobTrigger := request.simpleJobTrigger;
      if simpleJobTrigger.startTime.None? {
        simpleJobTrigger.SetStartTime(Some(platform.now));
      }
      r := Ok(SimpleTrigger(simpleJobTrigger));
    } else if request.complexJobTrigger != null {
      var complexJobTrigger := ConvertComplexJobTrigger(request.complexJobTrigger, request.duration, platform);
      r := AsCalendarTrigger(complexJobTrigger);
    } else {
      r := AsCalendarTrigger(CronTriggerFor(request.cronJobTrigger, scheduler, platform));
    }
  }

  // ---------------------------------------------------------------------------
  // Time zones

  /**
   * `convertDateToServerTimeZone`: unless the server's zone is the requested
   * one (ignoring case), the instant whose wall-clock fields in the requested
   * zone are the input's fields in the server's zone.
   */
  function ConvertDateToServerTimeZone(dateTime: Instant, timeZone: Option<string>, zones: ZoneTable)
    : (r: Result<Instant, SchedulingError>)
    ensures r.Err? <==> timeZone.None?
    ensures r.Err? ==> r.error == NullPointer
  {
    if timeZone.Some? && EqualsIgnoreCase(zones.defaultId, timeZone.value) then Ok(dateTime)
    else if timeZone.None? then Err(NullPointer)
    else Ok(zones.instantAt(ServerFields(zones, dateTime), timeZone.value))
  }

  /** The same zone, in any case, leaves the instant as it is. */
  lemma SameZoneKeepsInstant(dateTime: Instant, timeZone: string, zones: ZoneTable)
    requires EqualsIgnoreCase(zones.defaultId, timeZone)
    ensures ConvertDateToServerTimeZone(dateTime, Some(timeZone), zones) == Ok(dateTime)
  {
  }

  /**
   * Another zone moves the instant so that its wall clock there reads what
   * the input's reads on the server, wherever the zone table can represent
   * those fields in that zone (outside a daylight-saving gap).
   */
  lemma OtherZoneKeepsWallClock(dateTime: Instant, timeZone: string, zones: ZoneTable)
    requires !EqualsIgnoreCase(zones.defaultId, timeZone)
    requires var f := ServerFields(zones, dateTime); zones.fieldsIn(zones.instantAt(f, timeZone), timeZone) == f
    ensures var r := ConvertDateToServerTimeZone(dateTime, Some(timeZone), zones);
      r.Ok? && zones.fieldsIn(r.value, timeZone) == ServerFields(zones, dateTime)
  {
  }

  /** The start time after the zone adjustment: a null start time stays null. */
  function ShiftedStart(start: Option<Instant>, timeZone: Option<string>, zones: ZoneTable)
    : Result<Option<Instant>, SchedulingError>
  {
    if start.None? then Ok(None)
    else match ConvertDateToServerTimeZone(start.value, timeZone, zones)
         case Ok(t) => Ok(Some(t))
         case Err(e) => Err(e)
  }

  /** The new start time of a trigger, or the old one when the conversion failed. */
  function StartAfterShift(start: Option<Instant>, timeZone: Option<string>, zones: ZoneTable): Option<Instant>
  {
    match ShiftedStart(start, timeZone, zones)
    case Ok(s) => s
    case Err(_) => start
  }

  function OutcomeOfShift(start: Option<Instant>, timeZone: Option<string>, zones: ZoneTable): Outcome<SchedulingError>
  {
    match ShiftedStart(start, timeZone, zones)
    case Ok(_) => Pass
    case Err(e) => Fail(e)
  }

  /**
   * `updateStartDateForTimeZone`: adjusts the start time of the first trigger
   * present (simple, then complex, then cron) and of no other.
   */
  method UpdateStartDateForTimeZone(request: JobScheduleRequest, zones: ZoneTable)
    returns (o: Outcome<SchedulingError>)
    modifies (if request.simpleJobTrigger == null then {} else {request.simpleJobTrigger})`startTime
    modifies (if request.complexJobTrigger == null then {} else {request.complexJobTrigger})`startTime
    modifies (if request.cronJobTrigger == null then {} else {request.cronJobTrigger})`startTime
    ensures request.simpleJobTrigger != null ==>
      && request.simpleJobTrigger.startTime == StartAfterShift(old(request.simpleJobTrigger.startTime), request.timeZone, zones)
      && o == OutcomeOfShift(old(request.simpleJobTrigger.startTime), request.timeZone, zones)
      && (request.complexJobTrigger != null ==> unchanged(request.complexJobTrigger))
      && (request.cronJobTrigger != null ==> unchanged(request.cronJobTrigger))
    ensures request.simpleJobTrigger == null && request.complexJobTrigger != null ==>
      && request.complexJobTrigger.startTime == StartAfterShift(old(request.complexJobTrigger.startTime), request.timeZone, zones)
      && o == OutcomeOfShift(old(request.complexJobTrigger.startTime), request.timeZone, zones)
      && (request.cronJobTrigger != null ==> unchanged(request.cronJobTrigger))
    ensures request.simpleJobTrigger == null && request.complexJobTrigger == null && request.cronJobTrigger != null ==>
      && request.cronJobTrigger.startTime == StartAfterShift(old(request.cronJobTrigger.startTime), request.timeZone, zones)
      && o == OutcomeOfShift(old(request.cronJobTrigger.startTime), request.timeZone, zones)
    ensures request.simpleJobTrigger == null && request.complexJobTrigger == null && request.cronJobTrigger == null ==>
      o == Pass
  {
    o := Pass;
    if request.simpleJobTrigger != null {
      var trigger := request.simpleJobTrigger;
      if trigger.startTime.Some? {
        var converted := ConvertDateToServerTimeZone(trigger.startTime.value, request.timeZone, zones);
        if converted.Err? {
          return Fail(converted.error);
        }
        trigger.SetStartTime(Some(converted.value));
      }
    } else if request.complexJobTrigger != null {
      var trigger := request.complexJobTrigger;
      if trigger.startTime.Some? {
        var converted := ConvertDateToServerTimeZone(trigger.startTime.value, request.timeZone, zones);
        if converted.Err? {
          return Fail(converted.error);
        }
        trigger.SetStartTime(Some(converted.value));
      }
    } else if request.cronJobTrigger != null {
      var trigger := request.cronJobTrigger;
      if trigger.startTime.Some? {
        var converted := ConvertDateToServerTimeZone(trigger.startTime.value, request.timeZone, zones);
        if converted.Err? {
          return Fail(converted.error);
        }
        trigger.SetStartTime(Some(converted.value));
      }
    }
  }

  // ---------------------------------------------------------------------------
  // PDI files and action ids

  /** `isTransformation`: a file whose extension is "ktr" in any case. */
  predicate IsTransformation(file: Option<RepositoryFile>)
  {
    file.Some? && EqualsIgnoreCase("ktr", Extension(file.value.name))
  }

  /** `isJob`: a file whose extension is "kjb" in any case. */
  predicate IsJob(file: Option<RepositoryFile>)
  {
    file.Some? && EqualsIgnoreCase("kjb", Extension(file.value.name))
  }

  /** `isPdiFile`: a transformation or a job. */
  predicate IsPdiFile(file: Option<RepositoryFile>)
  {
    IsTransformation(file) || IsJob(file)
  }

  /**
   * A file named `stem.e` is a transformation exactly when `e` is "ktr" and a
   * job exactly when it is "kjb", ignoring case; never both.
   */
  lemma PdiFileByExtension(stem: string, e: string, path: string)
    requires '.' !in e && HasNoSeparator(e)
    ensures var file := Some(RepositoryFile(stem + "." + e, path));
      && (IsTransformation(file) <==> EqualsIgnoreCase(e, "ktr"))
      && (IsJob(file) <==> EqualsIgnoreCase(e, "kjb"))
      && !(IsTransformation(file) && IsJob(file))
      && (IsPdiFile(file) <==> EqualsIgnoreCase(e, "ktr") || EqualsIgnoreCase(e, "kjb"))
  {
    ExtensionOfDottedName(stem, e);
  }

  /** There is no file to classify behind a null reference. */
  lemma NullFileIsNotPdi()
    ensures !IsTransformation(None) && !IsJob(None) && !IsPdiFile(None)
  {
  }

  /** `StringUtils.isEmpty` of commons-lang: null or "". */
  predicate IsEmptyString(s: Option<string>)
  {
    s.None? || s.value == ""
  }

  /** `resolveActionId`: the file's extension followed by ".backgroundExecution", or null. */
  function ResolveActionId(inputFile: Option<string>): (r: Option<string>)
    ensures r.Some? <==> !IsEmptyString(inputFile) && Extension(inputFile.value) != ""
  {
    if !IsEmptyString(inputFile) && Extension(inputFile.value) != "" then
      Some(Extension(inputFile.value) + RESERVED_BACKGROUND_EXECUTION_ACTION_ID)
    else None
  }

  /** The action id of `stem.e`, for a non-empty extension `e`, is `e.backgroundExecution`. */
  lemma ResolveActionIdOfDottedName(stem: string, e: string)
    requires e != "" && '.' !in e && HasNoSeparator(e)
    ensures ResolveActionId(Some(stem + "." + e)) == Some(e + RESERVED_BACKGROUND_EXECUTION_ACTION_ID)
  {
    ExtensionOfDottedName(stem, e);
  }

  /** The reserved action id is a dot followed by a plain extension. */
  lemma ReservedActionIdIsDottedExtension()
    ensures RESERVED_BACKGROUND_EXECUTION_ACTION_ID == "." + "backgroundExecution"
    ensures '.' !in "backgroundExecution" && HasNoSeparator("backgroundExecution")
  {
  }

  /** The extension of an action id is "backgroundExecution", whatever extension it was built from. */
  lemma ActionIdExtension(e: string)
    ensures Extension(e + RESERVED_BACKGROUND_EXECUTION_ACTION_ID) == "backgroundExecution"
  {
    ReservedActionIdIsDottedExtension();
    ExtensionOfDottedName(e, "backgroundExecution");
    assert e + "." + "backgroundExecution" == e + RESERVED_BACKGROUND_EXECUTION_ACTION_ID;
  }

  // ---------------------------------------------------------------------------
  // PDI scheduling parameters

  /** A caller's parameter value: any serializable object, known here by its `toString()`. */
  datatype ParamValue = ParamValue(rendering: string)

  /** A value of the converted parameter map. */
  datatype Serializable =
    | Text(text: string)                       // a `String`
    | TextMap(entries: map<string, string>)    // a `Map<String, String>`
    | Caller(value: ParamValue)                // a caller's value, copied as is

  /** What the PDI content provider answers for the file's path, or its lookup failing (`PluginBeanException`). */
  datatype PdiContentProvider =
    | ProviderUnavailable
    | PdiContentProvider(userParameters: map<string, string>, variables: map<string, string>)

  /** The parameters the transformation or job declares; none when the provider failed. */
  function KettleParams(provider: PdiContentProvider): map<string, string>
  {
    if provider.ProviderUnavailable? then map[] else provider.userParameters
  }

  /** The variables the transformation or job uses; none when the provider failed. */
  function KettleVars(provider: PdiContentProvider): map<string, string>
  {
    if provider.ProviderUnavailable? then map[] else provider.variables
  }

  /** The keys under which the result describes the file are five different strings. */
  lemma ReservedKeysDistinct()
    ensures RUN_PARAMETERS_KEY != VARIABLES_KEY && RUN_PARAMETERS_KEY != DIRECTORY_KEY
    ensures RUN_PARAMETERS_KEY != TRANSFORMATION_KEY && RUN_PARAMETERS_KEY != JOB_KEY
    ensures VARIABLES_KEY != DIRECTORY_KEY && VARIABLES_KEY != TRANSFORMATION_KEY && VARIABLES_KEY != JOB_KEY
    ensures DIRECTORY_KEY != TRANSFORMATION_KEY && DIRECTORY_KEY != JOB_KEY && TRANSFORMATION_KEY != JOB_KEY
  {
    assert RUN_PARAMETERS_KEY[0] == 'p' && VARIABLES_KEY[0] == 'v' && DIRECTORY_KEY[0] == 'd';
    assert TRANSFORMATION_KEY[0] == 't' && JOB_KEY[0] == 'j';
  }

  /** `HashMap.putIfAbsent`: `k` is bound afterwards, to its old value if it had one, and nothing else changes. */
  function PutIfAbsent(m: map<string, Serializable>, k: string, v: Serializable): (r: map<string, Serializable>)
    ensures r.Keys == m.Keys + {k}
    ensures r[k] == (if k in m then m[k] else v)
    ensures forall j :: j in m ==> r[j] == m[j]
  {
    if k in m then m else m[k := v]
  }

  /** The converted map before the loop: the request's PDI parameters under the run-parameters key, if given. */
  function GivenParameters(pdiParameters: Option<map<string, string>>): map<string, Serializable>
  {
    if pdiParameters.Some? then map[RUN_PARAMETERS_KEY := TextMap(pdiParameters.value)] else map[]
  }

  /** The parameters among `keys` that the loop copies: the non-empty ones, as their strings. */
  function CopiedAsText(parameterMap: map<string, ParamValue>, keys: set<string>): map<string, Serializable>
  {
    map k | k in keys && k in parameterMap && k != "" :: Text(parameterMap[k].rendering)
  }

  /** The non-empty parameters among `keys` that `wanted` selects, as strings (the PDI parameters or the variables). */
  function RenderedWhere(parameterMap: map<string, ParamValue>, keys: set<string>, wanted: string -> bool)
    : map<string, string>
  {
    map k | k in keys && k in parameterMap && k != "" && wanted(k) :: parameterMap[k].rendering
  }

  /** Whether a parameter becomes a PDI parameter: always when the provider failed, else when it is declared. */
  function CollectedName(provider: PdiContentProvider): string -> bool
  {
    k => provider.ProviderUnavailable? || k in KettleParams(provider)
  }

  /** Whether a parameter becomes a variable: when the provider lists it. */
  function VariableName(provider: PdiContentProvider): string -> bool
  {
    k => k in KettleVars(provider)
  }

  /** The key the base name goes under. */
  function TypeKey(file: Option<RepositoryFile>): string
  {
    if IsTransformation(file) then TRANSFORMATION_KEY else JOB_KEY
  }

  /** The PDI parameters stored at the end: the request's, or the ones collected from `keys`. */
  function StoredPdiParameters(parameterMap: map<string, ParamValue>, keys: set<string>,
                               pdiParameters: Option<map<string, string>>, provider: PdiContentProvider)
    : map<string, string>
  {
    if pdiParameters.Some? then pdiParameters.value else RenderedWhere(parameterMap, keys, CollectedName(provider))
  }

  /** The last two `putIfAbsent` calls. */
  function Finish(m: map<string, Serializable>, collected: map<string, string>, vars: map<string, string>)
    : map<string, Serializable>
  {
    PutIfAbsent(PutIfAbsent(m, RUN_PARAMETERS_KEY, TextMap(collected)), VARIABLES_KEY, TextMap(vars))
  }

  /** The map for a transformation or a job, before the last two `putIfAbsent` calls. */
  function DescribedPdiFile(file: RepositoryFile, typeKey: string, parameterMap: map<string, ParamValue>,
                            pdiParameters: Option<map<string, string>>): map<string, Serializable>
  {
    (GivenParameters(pdiParameters) + CopiedAsText(parameterMap, parameterMap.Keys))
      [DIRECTORY_KEY := Text(PathNoEndSeparator(file.path))][typeKey := Text(BaseName(file.path))]
  }

  /** The map for any other file, before the last two `putIfAbsent` calls. */
  function MergedOtherFile(parameterMap: map<string, ParamValue>, pdiParameters: Option<map<string, string>>)
    : map<string, Serializable>
  {
    GivenParameters(pdiParameters) + map k | k in parameterMap :: Caller(parameterMap[k])
  }

  /**
   * `handlePDIScheduling`, as a single expression over maps: the converted
   * parameters of a file, given the file's PDI parameters from the request
   * (or null) and the provider's answer for the file's path.
   */
  function PdiSchedulingParameters(file: Option<RepositoryFile>, parameterMap: map<string, ParamValue>,
                                   pdiParameters: Option<map<string, string>>, provider: PdiContentProvider)
    : Result<map<string, Serializable>, SchedulingError>
  {
    if provider.PdiContentProvider? && file.None? then Err(NullPointer)
    else if IsPdiFile(file) then
      Ok(Finish(DescribedPdiFile(file.value, TypeKey(file), parameterMap, pdiParameters),
                StoredPdiParameters(parameterMap, parameterMap.Keys, pdiParameters, provider),
                RenderedWhere(parameterMap, parameterMap.Keys, VariableName(provider))))
    else
      Ok(Finish(MergedOtherFile(parameterMap, pdiParameters),
                if pdiParameters.Some? then pdiParameters.value else map[], map[]))
  }

  /** Binding a key after a `putAll` is binding it in the map put last. */
  lemma UpdateAfterUnion(a: map<string, Serializable>, b: map<string, Serializable>, k: string, v: Serializable)
    ensures (a + b)[k := v] == a + b[k := v]
  {
  }

  /** Taking one more key into account adds at most that key to the copied parameters. */
  lemma CopiedAsTextStep(parameterMap: map<string, ParamValue>, done: set<string>, param: string)
    ensures CopiedAsText(parameterMap, done + {param})
         == if param != "" && param in parameterMap
            then CopiedAsText(parameterMap, done)[param := Text(parameterMap[param].rendering)]
            else CopiedAsText(parameterMap, done)
  {
  }

  /** Taking one more key into account adds at most that key to a selection of the parameters. */
  lemma RenderedWhereStep(parameterMap: map<string, ParamValue>, done: set<string>, param: string, wanted: string -> bool)
    ensures RenderedWhere(parameterMap, done + {param}, wanted)
         == if param != "" && param in parameterMap && wanted(param)
            then RenderedWhere(parameterMap, done, wanted)[param := parameterMap[param].rendering]
            else RenderedWhere(parameterMap, done, wanted)
  {
  }

  /**
   * The loop of `handlePDIScheduling` for a transformation or a job: one pass
   * over the parameter keys, filling the converted map, the PDI parameters
   * (unless the request gave them) and the variables.
   */
  method CollectPdiFileParameters(parameterMap: map<string, ParamValue>, pdiParameters: Option<map<string, string>>,
                                  provider: PdiContentProvider)
    returns (convertedParameterMap: map<string, Serializable>, collected: map<string, string>,
             scheduleKettleVars: map<string, string>)
    ensures convertedParameterMap == GivenParameters(pdiParameters) + CopiedAsText(parameterMap, parameterMap.Keys)
    ensures collected == StoredPdiParameters(parameterMap, parameterMap.Keys, pdiParameters, provider)
    ensures scheduleKettleVars == RenderedWhere(parameterMap, parameterMap.Keys, VariableName(provider))
  {
    var fallbackToOldBehavior := provider.ProviderUnavailable?;
    var kettleParams := KettleParams(provider);
    var kettleVars := KettleVars(provider);
    convertedParameterMap, collected := map[], map[];
    var paramsAdded := false;
    if pdiParameters.Some? {
      convertedParameterMap := convertedParameterMap[RUN_PARAMETERS_KEY := TextMap(pdiParameters.value)];
      paramsAdded := true;
      collected := pdiParameters.value;
    }
    scheduleKettleVars := map[];
    var remaining := parameterMap.Keys;
    ghost var done: set<string> := {};
    while remaining != {}
      invariant remaining !! done && remaining + done == parameterMap.Keys
      invariant convertedParameterMap == GivenParameters(pdiParameters) + CopiedAsText(parameterMap, done)
      invariant collected == StoredPdiParameters(parameterMap, done, pdiParameters, provider)
      invariant scheduleKettleVars == RenderedWhere(parameterMap, done, VariableName(provider))
      invariant paramsAdded == pdiParameters.Some?
      decreases remaining
    {
      var param :| param in remaining;
      CopiedAsTextStep(parameterMap, done, param);
      RenderedWhereStep(parameterMap, done, param, CollectedName(provider));
      RenderedWhereStep(parameterMap, done, param, VariableName(provider));
      if param != "" && param in parameterMap {
        var value := parameterMap[param].rendering;
        UpdateAfterUnion(GivenParameters(pdiParameters), CopiedAsText(parameterMap, done), param, Text(value));
        convertedParameterMap := convertedParameterMap[param := Text(value)];
        if !paramsAdded && (fallbackToOldBehavior || param in kettleParams) {
          collected := collected[param := value];
        }
        if param in kettleVars {
          scheduleKettleVars := scheduleKettleVars[param := value];
        }
      }
      remaining := remaining - {param};
      done := done + {param};
    }
    assert done == parameterMap.Keys;
  }

  /** `handlePDIScheduling` as the source runs it. */
  method HandlePdiScheduling(file: Option<RepositoryFile>, parameterMap: map<string, ParamValue>,
                             pdiParameters: Option<map<string, string>>, provider: PdiContentProvider)
    returns (r: Result<map<string, Serializable>, SchedulingError>)
    ensures r == PdiSchedulingParameters(file, parameterMap, pdiParameters, provider)
  {
    if provider.PdiContentProvider? && file.None? {
      // the provider is asked about `file.getPath()`
      return Err(NullPointer);
    }
    var convertedParameterMap: map<string, Serializable>;
    var collected: map<string, string> := if pdiParameters.Some? then pdiParameters.value else map[];
    var scheduleKettleVars: map<string, string> := map[];
    if IsPdiFile(file) {
      convertedParameterMap, collected, scheduleKettleVars := CollectPdiFileParameters(parameterMap, pdiParameters, provider);
      var typeKey := if IsTransformation(file) then TRANSFORMATION_KEY else JOB_KEY;
      convertedParameterMap := convertedParameterMap[DIRECTORY_KEY := Text(PathNoEndSeparator(file.value.path))];
      convertedParameterMap := convertedParameterMap[typeKey := Text(BaseName(file.value.path))];
    } else {
      convertedParameterMap := GivenParameters(pdiParameters) + map k | k in parameterMap :: Caller(parameterMap[k]);
    }
    convertedParameterMap := PutIfAbsent(convertedParameterMap, RUN_PARAMETERS_KEY, TextMap(collected));
    convertedParameterMap := PutIfAbsent(convertedParameterMap, VARIABLES_KEY, TextMap(scheduleKettleVars));
    r := Ok(convertedParameterMap);
  }

  /** A null file fails only once the provider was found (its path is read); without the provider it is simply not a PDI file. */
  lemma PdiNullFile(parameterMap: map<string, ParamValue>, pdiParameters: Option<map<string, string>>,
                    provider: PdiContentProvider)
    ensures provider.PdiContentProvider? ==>
      PdiSchedulingParameters(None, parameterMap, pdiParameters, provider) == Err(NullPointer)
    ensures provider.ProviderUnavailable? ==>
      PdiSchedulingParameters(None, parameterMap, pdiParameters, provider).Ok?
  {
  }

  /**
   * PDI parameters given with the request are stored under the
   * run-parameters key as they are, never augmented, unless a caller's
   * parameter of that very name replaced them.
   */
  lemma PdiGivenParametersStored(file: Option<RepositoryFile>, parameterMap: map<string, ParamValue>,
                                 given: map<string, string>, provider: PdiContentProvider)
    requires provider.ProviderUnavailable? || file.Some?
    requires RUN_PARAMETERS_KEY !in parameterMap
    ensures var r := PdiSchedulingParameters(file, parameterMap, Some(given), provider);
      r.Ok? && RUN_PARAMETERS_KEY in r.value && r.value[RUN_PARAMETERS_KEY] == TextMap(given)
  {
    ReservedKeysDistinct();
    var before := if IsPdiFile(file) then DescribedPdiFile(file.value, TypeKey(file), parameterMap, Some(given))
                  else MergedOtherFile(parameterMap, Some(given));
    assert RUN_PARAMETERS_KEY !in CopiedAsText(parameterMap, parameterMap.Keys);
    assert RUN_PARAMETERS_KEY in before && before[RUN_PARAMETERS_KEY] == TextMap(given);
  }

  /** The last two `putIfAbsent` calls add the run parameters and the variables, each only where absent. */
  lemma FinishFacts(m: map<string, Serializable>, collected: map<string, string>, vars: map<string, string>)
    ensures Finish(m, collected, vars).Keys == m.Keys + {RUN_PARAMETERS_KEY, VARIABLES_KEY}
    ensures forall k :: k in m ==> Finish(m, collected, vars)[k] == m[k]
    ensures RUN_PARAMETERS_KEY !in m ==> Finish(m, collected, vars)[RUN_PARAMETERS_KEY] == TextMap(collected)
    ensures VARIABLES_KEY !in m ==> Finish(m, collected, vars)[VARIABLES_KEY] == TextMap(vars)
  {
    ReservedKeysDistinct();
  }

  /** The result for any other file, as its parts. */
  lemma OtherFileResult(file: Option<RepositoryFile>, parameterMap: map<string, ParamValue>,
                        pdiParameters: Option<map<string, string>>, provider: PdiContentProvider)
    requires !IsPdiFile(file) && (provider.ProviderUnavailable? || file.Some?)
    ensures PdiSchedulingParameters(file, parameterMap, pdiParameters, provider)
         == Ok(Finish(MergedOtherFile(parameterMap, pdiParameters),
                      if pdiParameters.Some? then pdiParameters.value else map[], map[]))
  {
  }

  /** The merged map of any other file: the caller's parameters win over the given run parameters. */
  lemma MergedOtherFileFacts(parameterMap: map<string, ParamValue>, pdiParameters: Option<map<string, string>>)
    ensures MergedOtherFile(parameterMap, pdiParameters).Keys == GivenParameters(pdiParameters).Keys + parameterMap.Keys
    ensures forall k :: k in parameterMap ==> MergedOtherFile(parameterMap, pdiParameters)[k] == Caller(parameterMap[k])
    ensures RUN_PARAMETERS_KEY !in parameterMap && pdiParameters.Some? ==>
      MergedOtherFile(parameterMap, pdiParameters)[RUN_PARAMETERS_KEY] == TextMap(pdiParameters.value)
    ensures RUN_PARAMETERS_KEY !in parameterMap && pdiParameters.None? ==>
      RUN_PARAMETERS_KEY !in MergedOtherFile(parameterMap, pdiParameters)
  {
  }

  /** The copied parameters are the non-empty ones, each as its string. */
  lemma CopiedAsTextFacts(parameterMap: map<string, ParamValue>)
    ensures CopiedAsText(parameterMap, parameterMap.Keys).Keys == set k | k in parameterMap && k != ""
    ensures forall k :: k in parameterMap && k != "" ==>
      CopiedAsText(parameterMap, parameterMap.Keys)[k] == Text(parameterMap[k].rendering)
  {
  }

  /** Describing the file binds the directory and the kind's key over whatever the map held. */
  lemma DescribeFacts(m: map<string, Serializable>, dirValue: Serializable, typeKey: string, baseValue: Serializable)
    requires typeKey != DIRECTORY_KEY
    ensures var d := m[DIRECTORY_KEY := dirValue][typeKey := baseValue];
      && d.Keys == m.Keys + {DIRECTORY_KEY, typeKey}
      && d[DIRECTORY_KEY] == dirValue && d[typeKey] == baseValue
      && forall k :: k in m && k != DIRECTORY_KEY && k != typeKey ==> d[k] == m[k]
  {
  }

  /** The keys of the result for a transformation or a job, before the last two `putIfAbsent` calls. */
  lemma DescribedPdiFileFacts(file: RepositoryFile, typeKey: string, parameterMap: map<string, ParamValue>,
                              pdiParameters: Option<map<string, string>>)
    requires typeKey == TRANSFORMATION_KEY || typeKey == JOB_KEY
    ensures var d := DescribedPdiFile(file, typeKey, parameterMap, pdiParameters);
      && d.Keys == GivenParameters(pdiParameters).Keys + (set k | k in parameterMap && k != "") + {DIRECTORY_KEY, typeKey}
      && d[DIRECTORY_KEY] == Text(PathNoEndSeparator(file.path))
      && d[typeKey] == Text(BaseName(file.path))
      && forall k :: k in parameterMap && k != "" && k != DIRECTORY_KEY && k != typeKey ==> d[k] == Text(parameterMap[k].rendering)
  {
    ReservedKeysDistinct();
    var copied := CopiedAsText(parameterMap, parameterMap.Keys);
    CopiedAsTextFacts(parameterMap);
    DescribeFacts(GivenParameters(pdiParameters) + copied, Text(PathNoEndSeparator(file.path)), typeKey, Text(BaseName(file.path)));
  }

  /** The result for a transformation or a job, as its three parts. */
  lemma PdiFileResult(file: Option<RepositoryFile>, parameterMap: map<string, ParamValue>,
                      pdiParameters: Option<map<string, string>>, provider: PdiContentProvider)
    requires IsPdiFile(file)
    ensures PdiSchedulingParameters(file, parameterMap, pdiParameters, provider)
         == Ok(Finish(DescribedPdiFile(file.value, TypeKey(file), parameterMap, pdiParameters),
                      StoredPdiParameters(parameterMap, parameterMap.Keys, pdiParameters, provider),
                      RenderedWhere(parameterMap, parameterMap.Keys, VariableName(provider))))
  {
  }

  /**
   * For a transformation or a job the result holds the non-empty keys, the
   * directory, the base name under the file's kind, the run parameters and
   * the variables, and nothing else.
   */
  lemma PdiFileKeys(file: Option<RepositoryFile>, parameterMap: map<string, ParamValue>,
                    pdiParameters: Option<map<string, string>>, provider: PdiContentProvider)
    requires IsPdiFile(file)
    ensures var r := PdiSchedulingParameters(file, parameterMap, pdiParameters, provider);
      && r.Ok?
      && r.value.Keys == (set k | k in parameterMap && k != "") + {DIRECTORY_KEY, TypeKey(file), RUN_PARAMETERS_KEY, VARIABLES_KEY}
  {
    PdiFileResult(file, parameterMap, pdiParameters, provider);
    var typeKey := TypeKey(file);
    var before := DescribedPdiFile(file.value, typeKey, parameterMap, pdiParameters);
    DescribedPdiFileFacts(file.value, typeKey, parameterMap, pdiParameters);
    var nonEmpty := set k | k in parameterMap && k != "";
    var given := GivenParameters(pdiParameters).Keys;
    assert given <= {RUN_PARAMETERS_KEY};
    assert before.Keys == given + nonEmpty + {DIRECTORY_KEY, typeKey};
    assert before.Keys + {RUN_PARAMETERS_KEY, VARIABLES_KEY} == nonEmpty + {DIRECTORY_KEY, typeKey, RUN_PARAMETERS_KEY, VARIABLES_KEY};
    FinishFacts(before, StoredPdiParameters(parameterMap, parameterMap.Keys, pdiParameters, provider),
                RenderedWhere(parameterMap, parameterMap.Keys, VariableName(provider)));
  }

  /**
   * For a transformation or a job every non-empty parameter is copied as its
   * string, and the directory and the base name go under their keys, the
   * base name under "transformation" exactly for a transformation.
   */
  lemma PdiFileParametersCopied(file: Option<RepositoryFile>, parameterMap: map<string, ParamValue>,
                                pdiParameters: Option<map<string, string>>, provider: PdiContentProvider)
    requires IsPdiFile(file)
    ensures var r := PdiSchedulingParameters(file, parameterMap, pdiParameters, provider);
      && r.Ok?
      && (forall k :: k in parameterMap && k != "" && k != DIRECTORY_KEY && k != TypeKey(file) ==>
            k in r.value && r.value[k] == Text(parameterMap[k].rendering))
      && DIRECTORY_KEY in r.value && r.value[DIRECTORY_KEY] == Text(PathNoEndSeparator(file.value.path))
      && TypeKey(file) in r.value && r.value[TypeKey(file)] == Text(BaseName(file.value.path))
      && (TypeKey(file) == TRANSFORMATION_KEY <==> IsTransformation(file))
  {
    ReservedKeysDistinct();
    PdiFileResult(file, parameterMap, pdiParameters, provider);
    var before := DescribedPdiFile(file.value, TypeKey(file), parameterMap, pdiParameters);
    DescribedPdiFileFacts(file.value, TypeKey(file), parameterMap, pdiParameters);
    FinishFacts(before, StoredPdiParameters(parameterMap, parameterMap.Keys, pdiParameters, provider),
                RenderedWhere(parameterMap, parameterMap.Keys, VariableName(provider)));
  }

  /**
   * For a transformation or a job without PDI parameters in the request: a
   * parameter becomes a PDI parameter exactly when the provider failed or
   * declares it, and a variable exactly when the provider lists it as one,
   * each under its string.
   */
  lemma PdiFileParametersCollected(file: Option<RepositoryFile>, parameterMap: map<string, ParamValue>,
                                   provider: PdiContentProvider)
    requires IsPdiFile(file)
    requires RUN_PARAMETERS_KEY !in parameterMap && VARIABLES_KEY !in parameterMap
    ensures var r := PdiSchedulingParameters(file, parameterMap, None, provider);
      && r.Ok?
      && r.value[RUN_PARAMETERS_KEY].TextMap?
      && r.value[VARIABLES_KEY].TextMap?
      && (forall k :: k in r.value[RUN_PARAMETERS_KEY].entries <==>
            k in parameterMap && k != "" && (provider.ProviderUnavailable? || k in provider.userParameters))
      && (forall k :: k in r.value[VARIABLES_KEY].entries <==>
            k in parameterMap && k != "" && provider.PdiContentProvider? && k in provider.variables)
      && (forall k :: k in r.value[RUN_PARAMETERS_KEY].entries ==>
            r.value[RUN_PARAMETERS_KEY].entries[k] == parameterMap[k].rendering)
      && (forall k :: k in r.value[VARIABLES_KEY].entries ==>
            r.value[VARIABLES_KEY].entries[k] == parameterMap[k].rendering)
  {
    ReservedKeysDistinct();
    PdiFileResult(file, parameterMap, None, provider);
    var before := DescribedPdiFile(file.value, TypeKey(file), parameterMap, None);
    DescribedPdiFileFacts(file.value, TypeKey(file), parameterMap, None);
    assert RUN_PARAMETERS_KEY !in before && VARIABLES_KEY !in before;
    FinishFacts(before, StoredPdiParameters(parameterMap, parameterMap.Keys, None, provider),
                RenderedWhere(parameterMap, parameterMap.Keys, VariableName(provider)));
  }

  /** Any other file gets every parameter as it is, plus empty variables and the (possibly given) run parameters. */
  lemma OtherFileParametersMerged(file: Option<RepositoryFile>, parameterMap: map<string, ParamValue>,
                                  pdiParameters: Option<map<string, string>>, provider: PdiContentProvider)
    requires !IsPdiFile(file) && (provider.ProviderUnavailable? || file.Some?)
    ensures var r := PdiSchedulingParameters(file, parameterMap, pdiParameters, provider);
      && r.Ok?
      && r.value.Keys == parameterMap.Keys + {RUN_PARAMETERS_KEY, VARIABLES_KEY}
      && (forall k :: k in parameterMap ==> r.value[k] == Caller(parameterMap[k]))
      && (VARIABLES_KEY !in parameterMap ==> r.value[VARIABLES_KEY] == TextMap(map[]))
      && (RUN_PARAMETERS_KEY !in parameterMap ==>
            r.value[RUN_PARAMETERS_KEY] == TextMap(if pdiParameters.Some? then pdiParameters.value else map[]))
  {
    OtherFileResult(file, parameterMap, pdiParameters, provider);
    MergedOtherFileFacts(parameterMap, pdiParameters);
    var merged := MergedOtherFile(parameterMap, pdiParameters);
    FinishFacts(merged, if pdiParameters.Some? then pdiParameters.value else map[], map[]);
  }
}
