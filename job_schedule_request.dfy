/**
 * The schedule request a client submits: which action to run, with which
 * parameters, and at most one of three kinds of trigger.
 */
module JobScheduleRequests {
  import opened Common
  import opened Triggers

  // Day-of-week numbers used in requests (0-based).
  const SUNDAY := 0
  const MONDAY := 1
  const TUESDAY := 2
  const WEDNESDAY := 3
  const THURSDAY := 4
  const FRIDAY := 5
  const SATURDAY := 6

  // Month numbers used in requests (0-based).
  const JANUARY := 0
  const FEBRUARY := 1
  const MARCH := 2
  const APRIL := 3
  const MAY := 4
  const JUNE := 5
  const JULY := 6
  const AUGUST := 7
  const SEPTEMBER := 8
  const OCTOBER := 9
  const NOVEMBER := 10
  const DECEMBER := 11

  /** The week-of-month value that stands for "the last week of the month". */
  const LAST_WEEK_OF_MONTH := 4

  /** The request's day numbers are the ordinals of the scheduler's day enumeration. */
  lemma DayConstantsAreOrdinals()
    ensures DayOfWeekAt(SUNDAY) == SUN && DayOfWeekAt(MONDAY) == MON && DayOfWeekAt(TUESDAY) == TUE
    ensures DayOfWeekAt(WEDNESDAY) == WED && DayOfWeekAt(THURSDAY) == THU
    ensures DayOfWeekAt(FRIDAY) == FRI && DayOfWeekAt(SATURDAY) == SAT
  {
  }

  /** `Job.JobState`. */
  datatype JobState = NORMAL | PAUSED | COMPLETE | ERROR | BLOCKED | UNSCHEDULED

  /** `JobScheduleParam`: one named, typed parameter value of the job. */
  datatype JobScheduleParam = JobScheduleParam(name: string, paramType: string, stringValue: seq<string>)

  /** An `ArrayList<JobScheduleParam>`: a list object whose contents change in place. */
  class JobParamList {
    var items: seq<JobScheduleParam>

    constructor (items: seq<JobScheduleParam>)
      ensures this.items == items
    {
      this.items := items;
    }

    /** `ArrayList.clear`. */
    method Clear()
      modifies this
      ensures items == []
    {
      items := [];
    }

    /** `ArrayList.addAll` of another list. */
    method AddAll(other: JobParamList)
      requires other != this
      modifies this
      ensures items == old(items) + other.items
    {
      items := items + other.items;
    }
  }

  /** Every field of a request at one moment; used to say what a setter leaves unchanged. */
  datatype RequestFields = RequestFields(
    jobName: Option<string>,
    jobId: Option<string>,
    jobState: Option<JobState>,
    inputFile: Option<string>,
    outputFile: Option<string>,
    actionClass: Option<string>,
    cronJobTrigger: CronJobTrigger?,
    complexJobTrigger: ComplexJobTriggerProxy?,
    simpleJobTrigger: SimpleJobTrigger?,
    jobParameters: JobParamList,
    pdiParameters: Option<map<string, string>>,
    duration: int,
    timeZone: Option<string>,
    runSafeMode: Option<string>,
    gatheringMetrics: Option<string>,
    logLevel: Option<string>)

  class JobScheduleRequest {
    var jobName: Option<string>
    var jobId: Option<string>
    var jobState: Option<JobState>
    var inputFile: Option<string>
    var outputFile: Option<string>
    var actionClass: Option<string>
    var cronJobTrigger: CronJobTrigger?
    var complexJobTrigger: ComplexJobTriggerProxy?
    var simpleJobTrigger: SimpleJobTrigger?
    var jobParameters: JobParamList
    var pdiParameters: Option<map<string, string>>
    var duration: int  // milliseconds, a Java long
    var timeZone: Option<string>
    var runSafeMode: Option<string>
    var gatheringMetrics: Option<string>
    var logLevel: Option<string>

    function Fields(): RequestFields
      reads this
    {
      RequestFields(jobName, jobId, jobState, inputFile, outputFile, actionClass,
                    cronJobTrigger, complexJobTrigger, simpleJobTrigger, jobParameters,
                    pdiParameters, duration, timeZone, runSafeMode, gatheringMetrics, logLevel)
    }

    /** The request's invariant: at most one of the three triggers is set. */
    predicate AtMostOneTrigger()
      reads this
    {
      (if cronJobTrigger != null then 1 else 0)
      + (if complexJobTrigger != null then 1 else 0)
      + (if simpleJobTrigger != null then 1 else 0) <= 1
    }

    constructor ()
      ensures fresh(jobParameters) && jobParameters.items == []
      ensures Fields() == RequestFields(None, None, None, None, None, None, null, null, null,
                                        jobParameters, None, 0, None, None, None, None)
      ensures AtMostOneTrigger()
    {
      jobName, jobId, jobState := None, None, None;
      inputFile, outputFile, actionClass := None, None, None;
      cronJobTrigger, complexJobTrigger, simpleJobTrigger := null, null, null;
      jobParameters := new JobParamList([]);
      pdiParameters, duration, timeZone := None, 0, None;
      runSafeMode, gatheringMetrics, logLevel := None, None, None;
    }

    // Triggers: setting one clears the other two; clearing one touches nothing else.

    function GetCronJobTrigger(): CronJobTrigger? reads this { cronJobTrigger }

    method SetCronJobTrigger(jobTrigger: CronJobTrigger?)
      modifies this
      decreases if jobTrigger == null then 0 else 1
      ensures jobTrigger != null ==>
        Fields() == old(Fields()).(cronJobTrigger := jobTrigger, complexJobTrigger := null, simpleJobTrigger := null)
      ensures jobTrigger == null ==> Fields() == old(Fields()).(cronJobTrigger := null)
      ensures jobTrigger != null || old(AtMostOneTrigger()) ==> AtMostOneTrigger()
    {
      if jobTrigger != null {
        SetComplexJobTrigger(null);
        SetSimpleJobTrigger(null);
      }
      cronJobTrigger := jobTrigger;
    }

    function GetComplexJobTrigger(): ComplexJobTriggerProxy? reads this { complexJobTrigger }

    method SetComplexJobTrigger(jobTrigger: ComplexJobTriggerProxy?)
      modifies this
      decreases if jobTrigger == null then 0 else 1
      ensures jobTrigger != null ==>
        Fields() == old(Fields()).(complexJobTrigger := jobTrigger, cronJobTrigger := null, simpleJobTrigger := null)
      ensures jobTrigger == null ==> Fields() == old(Fields()).(complexJobTrigger := null)
      ensures jobTrigger != null || old(AtMostOneTrigger()) ==> AtMostOneTrigger()
    {
      if jobTrigger != null {
        SetCronJobTrigger(null);
        SetSimpleJobTrigger(null);
      }
      complexJobTrigger := jobTrigger;
    }

    function GetSimpleJobTrigger(): SimpleJobTrigger? reads this { simpleJobTrigger }

    method SetSimpleJobTrigger(jobTrigger: SimpleJobTrigger?)
      modifies this
      decreases if jobTrigger == null then 0 else 1
      ensures jobTrigger != null ==>
        Fields() == old(Fields()).(simpleJobTrigger := jobTrigger, cronJobTrigger := null, complexJobTrigger := null)
      ensures jobTrigger == null ==> Fields() == old(Fields()).(simpleJobTrigger := null)
      ensures jobTrigger != null || old(AtMostOneTrigger()) ==> AtMostOneTrigger()
    {
      if jobTrigger != null {
        SetCronJobTrigger(null);
        SetComplexJobTrigger(null);
      }
      simpleJobTrigger := jobTrigger;
    }

    // Job parameters: the request keeps its own list object and refills it.

    function GetJobParameters(): JobParamList reads this { jobParameters }

    method SetJobParameters(parameters: JobParamList?)
      modifies jobParameters
      ensures unchanged(this)
      ensures parameters == jobParameters ==> jobParameters.items == old(jobParameters.items)
      ensures parameters == null ==> jobParameters.items == []
      ensures parameters != null && parameters != jobParameters ==>
        jobParameters.items == old(parameters.items) && unchanged(parameters)
    {
      if parameters != jobParameters {
        jobParameters.Clear();
        if parameters != null {
          jobParameters.AddAll(parameters);
        }
      }
    }

    // Plain properties: each setter changes its own field and nothing else.

    function GetPdiParameters(): Option<map<string, string>> reads this { pdiParameters }

    method SetPdiParameters(pdiParameters: Option<map<string, string>>)
      modifies this
      ensures Fields() == old(Fields()).(pdiParameters := pdiParameters)
    {
      this.pdiParameters := pdiParameters;
    }

    function GetInputFile(): Option<string> reads this { inputFile }

    method SetInputFile(file: Option<string>)
      modifies this
      ensures Fields() == old(Fields()).(inputFile := file)
    {
      inputFile := file;
    }

    function GetOutputFile(): Option<string> reads this { outputFile }

    method SetOutputFile(file: Option<string>)
      modifies this
      ensures Fields() == old(Fields()).(outputFile := file)
    {
      outputFile := file;
    }

    function GetJobName(): Option<string> reads this { jobName }

    method SetJobName(jobName: Option<string>)
      modifies this
      ensures Fields() == old(Fields()).(jobName := jobName)
    {
      this.jobName := jobName;
    }

    function GetJobState(): Option<JobState> reads this { jobState }

    method SetJobState(jobState: Option<JobState>)
      modifies this
      ensures Fields() == old(Fields()).(jobState := jobState)
    {
      this.jobState := jobState;
    }

    function GetActionClass(): Option<string> reads this { actionClass }

    method SetActionClass(actionClass: Option<string>)
      modifies this
      ensures Fields() == old(Fields()).(actionClass := actionClass)
    {
      this.actionClass := actionClass;
    }

    function GetDuration(): int reads this { duration }

    method SetDuration(duration: int)
      modifies this
      ensures Fields() == old(Fields()).(duration := duration)
    {
      this.duration := duration;
    }

    function GetTimeZone(): Option<string> reads this { timeZone }

    method SetTimeZone(timeZone: Option<string>)
      modifies this
      ensures Fields() == old(Fields()).(timeZone := timeZone)
    {
      this.timeZone := timeZone;
    }

    function GetJobId(): Option<string> reads this { jobId }

    method SetJobId(jobId: Option<string>)
      modifies this
      ensures Fields() == old(Fields()).(jobId := jobId)
    {
      this.jobId := jobId;
    }

    function GetRunSafeMode(): Option<string> reads this { runSafeMode }

    method SetRunSafeMode(runSafeMode: Option<string>)
      modifies this
      ensures Fields() == old(Fields()).(runSafeMode := runSafeMode)
    {
      this.runSafeMode := runSafeMode;
    }

    function GetGatheringMetrics(): Option<string> reads this { gatheringMetrics }

    method SetGatheringMetrics(gatheringMetrics: Option<string>)
      modifies this
      ensures Fields() == old(Fields()).(gatheringMetrics := gatheringMetrics)
    {
      this.gatheringMetrics := gatheringMetrics;
    }

    function GetLogLevel(): Option<string> reads this { logLevel }

    method SetLogLevel(logLevel: Option<string>)
      modifies this
      ensures Fields() == old(Fields()).(logLevel := logLevel)
    {
      this.logLevel := logLevel;
    }
  }
}
