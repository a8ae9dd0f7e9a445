/**
 * The scheduler API's trigger types as the scheduling code sees them: the
 * three request-side triggers (objects whose start time is updated in place)
 * and the calendar trigger that the conversion produces.
 */
module Triggers {
  import opened Common

  /** Milliseconds since the epoch (`java.util.Date`). */
  type Instant = int

  /** `QualifiedDayOfWeek.DayOfWeek`, in declaration order. */
  datatype DayOfWeek = SUN | MON | TUE | WED | THU | FRI | SAT

  /** `QualifiedDayOfWeek.DayOfWeekQualifier`, in declaration order: the first to fifth week, then the last. */
  datatype DayOfWeekQualifier = FIRST | SECOND | THIRD | FOURTH | FIFTH | LAST

  /** `DayOfWeekQualifier.values().length`. */
  const QUALIFIER_COUNT := 6

  /** `DayOfWeek.values()[i]`. */
  function DayOfWeekAt(i: int): (d: DayOfWeek)
    requires 0 <= i <= 6
    ensures DayOfWeekOrdinal(d) == i
  {
    [SUN, MON, TUE, WED, THU, FRI, SAT][i]
  }

  /** `DayOfWeek.ordinal()`. */
  function DayOfWeekOrdinal(d: DayOfWeek): (i: int)
    ensures 0 <= i <= 6
  {
    match d
    case SUN => 0 case MON => 1 case TUE => 2 case WED => 3
    case THU => 4 case FRI => 5 case SAT => 6
  }

  /** Indexing the enumeration and taking ordinals are inverse. */
  lemma DayOfWeekAtOrdinal(d: DayOfWeek)
    ensures DayOfWeekAt(DayOfWeekOrdinal(d)) == d
  {
  }

  /** `DayOfWeekQualifier.values()[i]`. */
  function QualifierAt(i: int): (q: DayOfWeekQualifier)
    requires 0 <= i < QUALIFIER_COUNT
    ensures QualifierOrdinal(q) == i
  {
    [FIRST, SECOND, THIRD, FOURTH, FIFTH, LAST][i]
  }

  /** `DayOfWeekQualifier.ordinal()`. */
  function QualifierOrdinal(q: DayOfWeekQualifier): (i: int)
    ensures 0 <= i < QUALIFIER_COUNT
  {
    match q
    case FIRST => 0 case SECOND => 1 case THIRD => 2 case FOURTH => 3 case FIFTH => 4 case LAST => 5
  }

  /** One day-of-week recurrence of a calendar trigger. */
  datatype DayOfWeekRecurrence =
    | DayNumber(day: int)  // `addDayOfWeekRecurrence(int)`: 1 = Sunday .. 7 = Saturday
    | QualifiedDayOfWeek(dayOfWeek: DayOfWeek, qualifier: DayOfWeekQualifier)  // "2nd Tuesday", "last Friday"

  /**
   * `ComplexJobTrigger`, the calendar trigger handed to the scheduler. Each
   * `add*Recurrence` call appends one entry to the matching sequence.
   */
  datatype ComplexJobTrigger = ComplexJobTrigger(
    dayOfWeekRecurrences: seq<DayOfWeekRecurrence>,
    dayOfMonthRecurrences: seq<int>,
    monthlyRecurrences: seq<int>,
    yearlyRecurrences: seq<int>,
    hourlyRecurrence: Option<int>,
    minuteRecurrence: Option<int>,
    startTime: Option<Instant>,
    endTime: Option<Instant>,
    duration: int,
    uiPassParam: Option<string>)

  /** `new ComplexJobTrigger()`: no recurrence yet. */
  const EmptyComplexJobTrigger := ComplexJobTrigger([], [], [], [], None, None, None, None, 0, None)

  /** One field of a cron expression as the cron builder composes it. */
  datatype CronField = On(value: int) | Every(step: int) | Always | QuestionMark

  /** A Quartz cron expression, field by field. */
  datatype QuartzCron = QuartzCron(
    second: CronField, minute: CronField, hour: CronField, dayOfMonth: CronField,
    month: CronField, dayOfWeek: CronField, year: CronField)

  /** `SimpleJobTrigger`: fire at the start time, then `repeatCount` more times every `repeatInterval` seconds. */
  class SimpleJobTrigger {
    var startTime: Option<Instant>
    var endTime: Option<Instant>
    var repeatCount: int
    var repeatInterval: int
    var uiPassParam: Option<string>

    constructor (startTime: Option<Instant>, endTime: Option<Instant>, repeatCount: int, repeatInterval: int)
      ensures this.startTime == startTime && this.endTime == endTime
      ensures this.repeatCount == repeatCount && this.repeatInterval == repeatInterval
      ensures uiPassParam == None
    {
      this.startTime := startTime;
      this.endTime := endTime;
      this.repeatCount := repeatCount;
      this.repeatInterval := repeatInterval;
      uiPassParam := None;
    }

    method SetStartTime(t: Option<Instant>)
      modifies this`startTime
      ensures startTime == t
    {
      startTime := t;
    }
  }

  /** `ComplexJobTriggerProxy`: the calendar description a client sends (days 0-based, months 0-based). */
  class ComplexJobTriggerProxy {
    var startTime: Option<Instant>
    var endTime: Option<Instant>
    var daysOfWeek: seq<int>
    var weeksOfMonth: seq<int>
    var daysOfMonth: seq<int>
    var monthsOfYear: seq<int>
    var years: seq<int>
    var repeatInterval: int  // seconds, a Java long
    var cronString: Option<string>
    var uiPassParam: Option<string>

    method SetStartTime(t: Option<Instant>)
      modifies this`startTime
      ensures startTime == t
    {
      startTime := t;
    }
  }

  /** `CronJobTrigger`: a raw cron expression with its own start, end and duration. */
  class CronJobTrigger {
    var cronString: Option<string>
    var startTime: Option<Instant>
    var endTime: Option<Instant>
    var duration: int
    var uiPassParam: Option<string>

    method SetStartTime(t: Option<Instant>)
      modifies this`startTime
      ensures startTime == t
    {
      startTime := t;
    }
  }

  /** `IJobTrigger` as returned by the conversion: the request's own simple trigger, a new one, or a calendar trigger. */
  datatype JobTrigger = SimpleTrigger(simple: SimpleJobTrigger) | CalendarTrigger(complex: ComplexJobTrigger)
}
