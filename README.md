# Schedule requests, trigger conversion and report import in the Pentaho platform

This project is a Dafny model of three classes of the Pentaho BI platform's
web and import layer. It also proves properties of that model.

- `JobScheduleRequest` is the request a client sends to schedule a job. It
  holds at most one of three triggers (simple, complex calendar-based, raw
  cron). Setting one trigger clears the other two.
- `SchedulerResourceUtil` does four things:
  - it turns a request into the trigger the scheduler runs;
  - it moves a trigger's start time into the requested time zone;
  - it resolves the background-execution action id of an input file;
  - it prepares the parameter map of a PDI file (a `.ktr` transformation or a `.kjb` job).
- `PRPTImportHandler` imports a report bundle (`.prpt`). The report's title
  and description become a locale entry. The report's "visible" attribute
  decides the bundle's hidden flag when the bundle carries none.

Modules:

| module | file | contents |
|---|---|---|
| `Common` | `common.dfy` | `Option` (Java `null`), `Result`, `Outcome` (thrown exceptions) |
| `JavaText` | `java_text.dfy` | `equalsIgnoreCase` (ASCII), the whitespace that `String.trim` removes, `lastIndexOf`, `String.split("[ ]+")` and its inverse |
| `FileNames` | `file_names.dfy` | the file-name functions the core calls: extension, name, base name, path without end separator, in the manner of commons-io `FilenameUtils` |
| `Triggers` | `triggers.dfy` | the platform's trigger classes: the simple trigger, the complex trigger proxy and the cron trigger (their start times change in place); the `ComplexJobTrigger` value built from them; the day-of-week enumerations |
| `JobScheduleRequests` | `job_schedule_request.dfy` | the request class, its constants and its mutually exclusive trigger setters |
| `SchedulerResourceUtil` | `scheduler_resource_util.dfy` | trigger conversion, time-zone adjustment, action ids, PDI parameter handling |
| `PrptImportHandler` | `prpt_import_handler.dfy` | the reporting library's blank test (`StringUtils.isEmpty(s, true)`), locale entry, hidden flag, and the import and its failure wrapping |

How Java is represented:

- `null` is `None`, and a thrown exception is an `Err`/`Fail` value.
- Collaborators the code calls into come in as values or functions:
  - the clock
  - the time-zone database and its default zone
  - the cron builder's rendering
  - Quartz's cron compiler
  - the PDI content provider's answer
  - the report parser's result
  - `super.importFile`
  - the locale file processor
- Objects whose fields the code updates are Dafny classes:
  - the request
  - the three trigger classes
  - the parameter list
  - the import bundle
  - the locale file processor
- Each loop is a Dafny method proved against a specification function.

## Model

Source paths are relative to the repository root.

| member | source | states |
|---|---|---|
| JavaText.SplitOnSpaces | extensions/src/main/java/org/pentaho/platform/web/http/api/resources/SchedulerResourceUtil.java:160-161 | a string without a space is its own only token; with a space, no token is empty at the end and no token contains a space |
| JavaText.SplitOfSpacesOnly | extensions/src/main/java/org/pentaho/platform/web/http/api/resources/SchedulerResourceUtil.java:160-161 | a non-empty string of spaces only has no token at all |
| JavaText.SplitJoinRoundTrip | extensions/src/main/java/org/pentaho/platform/web/http/api/resources/SchedulerResourceUtil.java:160-162 | splitting space-free fields that were joined by single spaces gives back exactly those fields |
| FileNames.Extension | extensions/src/main/java/org/pentaho/platform/web/http/api/resources/SchedulerResourceUtil.java:292-296 | the extension has no dot and no separator; a non-empty extension is what follows the name's last dot |
| FileNames.ExtensionOfDottedName | extensions/src/main/java/org/pentaho/platform/web/http/api/resources/SchedulerResourceUtil.java:292-296 | a name ending in "." plus a dot-free, separator-free word has that word as its extension |
| FileNames.RepositoryPathParts | extensions/src/main/java/org/pentaho/platform/web/http/api/resources/SchedulerResourceUtil.java:268-270 | for "/dir/name", the path without end separator is "dir" and the name is "name" |
| Triggers.DayOfWeekAt | extensions/src/main/java/org/pentaho/platform/web/http/api/resources/SchedulerResourceUtil.java:114 | the day of the week at an index in 0..6 has that index as its ordinal |
| Triggers.QualifierAt | extensions/src/main/java/org/pentaho/platform/web/http/api/resources/SchedulerResourceUtil.java:119 | the qualifier at an index in 0..5 has that index as its ordinal |
| Triggers.SimpleJobTrigger.SetStartTime | extensions/src/main/java/org/pentaho/platform/web/http/api/resources/SchedulerResourceUtil.java:88 | only the start time changes, to the given one |
| Triggers.ComplexJobTriggerProxy.SetStartTime | extensions/src/main/java/org/pentaho/platform/web/http/api/resources/SchedulerResourceUtil.java:190 | only the start time changes, to the given one |
| Triggers.CronJobTrigger.SetStartTime | extensions/src/main/java/org/pentaho/platform/web/http/api/resources/SchedulerResourceUtil.java:196 | only the start time changes, to the given one |
| Triggers.DayOfWeekAtOrdinal | extensions/src/main/java/org/pentaho/platform/web/http/api/resources/SchedulerResourceUtil.java:114 | `values()[ordinal()]` gives back the enumeration value |
| JobScheduleRequests.DayConstantsAreOrdinals | extensions/src/main/java/org/pentaho/platform/web/http/api/resources/JobScheduleRequest.java:38-76 | SUNDAY..SATURDAY index the enumeration's SUN..SAT |
| JobScheduleRequests.JobParamList.AddAll | extensions/src/main/java/org/pentaho/platform/web/http/api/resources/JobScheduleRequest.java:168 | the other list's items are appended in order |
| JobScheduleRequests.JobScheduleRequest.constructor | extensions/src/main/java/org/pentaho/platform/web/http/api/resources/JobScheduleRequest.java:78-106 | a new request has no triggers, a fresh empty parameter list, duration 0 and null everywhere else |
| JobScheduleRequests.JobScheduleRequest.SetCronJobTrigger | extensions/src/main/java/org/pentaho/platform/web/http/api/resources/JobScheduleRequest.java:128-134 | a non-null trigger becomes the only trigger; null clears only the cron trigger; no other field changes; at most one trigger stays set |
| JobScheduleRequests.JobScheduleRequest.SetComplexJobTrigger | extensions/src/main/java/org/pentaho/platform/web/http/api/resources/JobScheduleRequest.java:140-146 | the same exclusivity for the complex trigger |
| JobScheduleRequests.JobScheduleRequest.SetSimpleJobTrigger | extensions/src/main/java/org/pentaho/platform/web/http/api/resources/JobScheduleRequest.java:152-158 | the same exclusivity for the simple trigger |
| JobScheduleRequests.JobScheduleRequest.SetJobParameters | extensions/src/main/java/org/pentaho/platform/web/http/api/resources/JobScheduleRequest.java:164-171 | the request keeps its own list object; given itself it keeps its items; given null it ends empty; otherwise it ends with the other list's items and leaves that list alone |
| JobScheduleRequests.JobScheduleRequest.SetInputFile | extensions/src/main/java/org/pentaho/platform/web/http/api/resources/JobScheduleRequest.java:112-114 | the input file becomes the given value and no other field of the request changes |
| JobScheduleRequests.JobScheduleRequest.SetOutputFile | extensions/src/main/java/org/pentaho/platform/web/http/api/resources/JobScheduleRequest.java:120-122 | the output file becomes the given value and no other field of the request changes |
| JobScheduleRequests.JobScheduleRequest.SetPdiParameters | extensions/src/main/java/org/pentaho/platform/web/http/api/resources/JobScheduleRequest.java:177-179 | the PDI parameter map becomes the given value and no other field of the request changes |
| JobScheduleRequests.JobScheduleRequest.SetJobName | extensions/src/main/java/org/pentaho/platform/web/http/api/resources/JobScheduleRequest.java:185-187 | the job name becomes the given value and no other field of the request changes |
| JobScheduleRequests.JobScheduleRequest.SetJobState | extensions/src/main/java/org/pentaho/platform/web/http/api/resources/JobScheduleRequest.java:193-195 | the job state becomes the given value and no other field of the request changes |
| JobScheduleRequests.JobScheduleRequest.SetActionClass | extensions/src/main/java/org/pentaho/platform/web/http/api/resources/JobScheduleRequest.java:201-203 | the action class becomes the given value and no other field of the request changes |
| JobScheduleRequests.JobScheduleRequest.SetDuration | extensions/src/main/java/org/pentaho/platform/web/http/api/resources/JobScheduleRequest.java:209-211 | the duration becomes the given value and no other field of the request changes |
| JobScheduleRequests.JobScheduleRequest.SetTimeZone | extensions/src/main/java/org/pentaho/platform/web/http/api/resources/JobScheduleRequest.java:217-219 | the time zone becomes the given value and no other field of the request changes |
| JobScheduleRequests.JobScheduleRequest.SetJobId | extensions/src/main/java/org/pentaho/platform/web/http/api/resources/JobScheduleRequest.java:225-227 | the job id becomes the given value and no other field of the request changes |
| JobScheduleRequests.JobScheduleRequest.SetRunSafeMode | extensions/src/main/java/org/pentaho/platform/web/http/api/resources/JobScheduleRequest.java:233-235 | the safe-mode flag becomes the given value and no other field of the request changes |
| JobScheduleRequests.JobScheduleRequest.SetGatheringMetrics | extensions/src/main/java/org/pentaho/platform/web/http/api/resources/JobScheduleRequest.java:241-243 | the metrics flag becomes the given value and no other field of the request changes |
| JobScheduleRequests.JobScheduleRequest.SetLogLevel | extensions/src/main/java/org/pentaho/platform/web/http/api/resources/JobScheduleRequest.java:249-251 | the log level becomes the given value and no other field of the request changes |
| JobScheduleRequests.JobParamList.Clear | extensions/src/main/java/org/pentaho/platform/web/http/api/resources/JobScheduleRequest.java:166 | the list ends empty |
| SchedulerResourceUtil.JavaIntCast | extensions/src/main/java/org/pentaho/platform/web/http/api/resources/SchedulerResourceUtil.java:103 | the cast lands in the 32-bit range, is congruent to its input modulo 2^32, and keeps any input already in range |
| SchedulerResourceUtil.JavaIntIncrementWraps | extensions/src/main/java/org/pentaho/platform/web/http/api/resources/SchedulerResourceUtil.java:124-138 | the `+ 1` of the source adds one below the largest `int` and wraps the largest `int` to the smallest |
| SchedulerResourceUtil.DayInterval | extensions/src/main/java/org/pentaho/platform/web/http/api/resources/SchedulerResourceUtil.java:103 | the day interval lies within plus or minus 24855 and has the sign of the interval cast to `int` |
| SchedulerResourceUtil.DayIntervalRoundsTowardZero | extensions/src/main/java/org/pentaho/platform/web/http/api/resources/SchedulerResourceUtil.java:103 | the day interval is the cast interval divided by 86400, rounded toward zero for either sign |
| SchedulerResourceUtil.QualifierFor | extensions/src/main/java/org/pentaho/platform/web/http/api/resources/SchedulerResourceUtil.java:116-120 | week 4 (`LAST_WEEK_OF_MONTH`) gives LAST without a lookup and any other week the qualifier with that ordinal; so LAST comes out exactly for weeks 4 and 5, and FIFTH never |
| SchedulerResourceUtil.QualifiedRecurrenceAt | extensions/src/main/java/org/pentaho/platform/web/http/api/resources/SchedulerResourceUtil.java:110-123 | the nested loops put the pair made of day i and week j at position i * weeks + j |
| SchedulerResourceUtil.ExplicitQualifiedDaysOfWeek | extensions/src/main/java/org/pentaho/platform/web/http/api/resources/SchedulerResourceUtil.java:108-123 | with days and weeks given, the result has one qualified day per (day, week) pair, days outer and weeks inner, and no day-of-month recurrences |
| SchedulerResourceUtil.ExplicitModeFailsOnlyOnLookup | extensions/src/main/java/org/pentaho/platform/web/http/api/resources/SchedulerResourceUtil.java:108-123 | building the lists fails if and only if days and weeks are both non-empty and some day or week number has no enumeration value; the failure is an index-out-of-bounds |
| SchedulerResourceUtil.ExplicitPlainDaysOfWeek | extensions/src/main/java/org/pentaho/platform/web/http/api/resources/SchedulerResourceUtil.java:124-128 | days without weeks become the day numbers of their Java `int` successors, in order; below the largest `int` that is the 1-based day |
| SchedulerResourceUtil.ExplicitDaysOfMonth | extensions/src/main/java/org/pentaho/platform/web/http/api/resources/SchedulerResourceUtil.java:129-134 | without days of the week, the days of the month are copied as they are |
| SchedulerResourceUtil.ExplicitMonthsAndYears | extensions/src/main/java/org/pentaho/platform/web/http/api/resources/SchedulerResourceUtil.java:136-142 | months become their Java `int` successors (1-based below the largest `int`) and years are copied, in order |
| SchedulerResourceUtil.GenerateCronString | extensions/src/main/java/org/pentaho/platform/web/http/api/resources/SchedulerResourceUtil.java:311-326 | second 0 at the start's server-zone hour and minute, every interval days, every month and year, any day of the week; its use is stated by `GeneratedModeIgnoresCalendarLists` |
| SchedulerResourceUtil.AddQualifiedRow | extensions/src/main/java/org/pentaho/platform/web/http/api/resources/SchedulerResourceUtil.java:111-122 | the inner loop yields one qualified day per week, or index-out-of-bounds when the day or any week has no enumeration value |
| SchedulerResourceUtil.AddQualifiedDaysOfWeek | extensions/src/main/java/org/pentaho/platform/web/http/api/resources/SchedulerResourceUtil.java:110-123 | the outer loop yields the qualified recurrences of all pairs, or index-out-of-bounds when any lookup fails |
| SchedulerResourceUtil.BuildCalendarRecurrences | extensions/src/main/java/org/pentaho/platform/web/http/api/resources/SchedulerResourceUtil.java:107-142 | the loops build exactly the calendar lists the explicit mode specifies, including its failure |
| SchedulerResourceUtil.ComplexTriggerFor | extensions/src/main/java/org/pentaho/platform/web/http/api/resources/SchedulerResourceUtil.java:93-155 | the result of the complex branch; its failures and stamps are stated by `ComplexTriggerStamped` and its generated mode by `GeneratedModeIgnoresCalendarLists` |
| SchedulerResourceUtil.ComplexTriggerStamped | extensions/src/main/java/org/pentaho/platform/web/http/api/resources/SchedulerResourceUtil.java:93-155 | for a complex request:<br>- a null start time fails with a null pointer, after any lookup failure of the explicit lists<br>- explicit mode takes hour and minute from the start time in the server zone<br>- a trigger that succeeds carries the proxy's start, end and UI parameter and the request's duration |
| SchedulerResourceUtil.GeneratedModeIgnoresCalendarLists | extensions/src/main/java/org/pentaho/platform/web/http/api/resources/SchedulerResourceUtil.java:102-105 | in "TO_BE_GENERATED" mode:<br>- the calendar lists play no part<br>- the expression is second 0, the start's minute and hour, every N days in day-of-month, any month, "?" day-of-week, any year<br>- the compiler's result or rejection passes through |
| SchedulerResourceUtil.ConvertComplexJobTrigger | extensions/src/main/java/org/pentaho/platform/web/http/api/resources/SchedulerResourceUtil.java:93-155 | the complex branch computes the trigger, or the failure, that `ComplexTriggerFor` gives |
| SchedulerResourceUtil.PadCronString | extensions/src/main/java/org/pentaho/platform/web/http/api/resources/SchedulerResourceUtil.java:159-164 | one "*" field is added exactly when the split has fewer than seven tokens; stated for joined fields by the two lemmas below |
| SchedulerResourceUtil.PadCronStringAddsField | extensions/src/main/java/org/pentaho/platform/web/http/api/resources/SchedulerResourceUtil.java:159-164 | fewer than seven fields get " *" appended, which splits as the same fields plus "*" |
| SchedulerResourceUtil.PadCronStringKeepsSevenFields | extensions/src/main/java/org/pentaho/platform/web/http/api/resources/SchedulerResourceUtil.java:159-164 | seven or more fields are left as written |
| SchedulerResourceUtil.CronTriggerFor | extensions/src/main/java/org/pentaho/platform/web/http/api/resources/SchedulerResourceUtil.java:156-173 | the result of the cron branch; its outcome is stated by `CronTriggerOutcome` |
| SchedulerResourceUtil.CronTriggerOutcome | extensions/src/main/java/org/pentaho/platform/web/http/api/resources/SchedulerResourceUtil.java:156-173 | a scheduler other than Quartz is an illegal argument; with Quartz, a null cron string is a null pointer, and otherwise the result is Quartz's refusal of the padded string as a scheduler exception or its compiled trigger with the cron trigger's start, end, duration and UI parameter |
| SchedulerResourceUtil.ConvertScheduleRequestToJobTrigger | extensions/src/main/java/org/pentaho/platform/web/http/api/resources/SchedulerResourceUtil.java:70-177 | precedence between the branches:<br>- no trigger gives a fresh one-shot simple trigger 10000 ms after now<br>- a simple trigger is returned itself, with a null start set to now and nothing else changed<br>- otherwise `ComplexTriggerFor`, then `CronTriggerFor`, decides |
| SchedulerResourceUtil.SameZoneKeepsInstant | extensions/src/main/java/org/pentaho/platform/web/http/api/resources/SchedulerResourceUtil.java:201-218 | when the server's zone id equals the requested one ignoring case, the date is returned unchanged |
| SchedulerResourceUtil.OtherZoneKeepsWallClock | extensions/src/main/java/org/pentaho/platform/web/http/api/resources/SchedulerResourceUtil.java:201-215 | for another zone, the result reads in that zone the wall-clock fields the input reads on the server |
| SchedulerResourceUtil.ConvertDateToServerTimeZone | extensions/src/main/java/org/pentaho/platform/web/http/api/resources/SchedulerResourceUtil.java:201-219 | the conversion fails if and only if the zone id is null, and then with a null pointer |
| SchedulerResourceUtil.UpdateStartDateForTimeZone | extensions/src/main/java/org/pentaho/platform/web/http/api/resources/SchedulerResourceUtil.java:179-199 | exactly the first trigger present (simple, then complex, then cron) has its non-null start shifted by the zone conversion; only that trigger's start time may be written, and every other field is kept |
| SchedulerResourceUtil.PdiFileByExtension | extensions/src/main/java/org/pentaho/platform/web/http/api/resources/SchedulerResourceUtil.java:287-297 | a file is a transformation if and only if its extension is "ktr" ignoring case, and a job if and only if it is "kjb"; never both; PDI if and only if either |
| SchedulerResourceUtil.IsTransformation | extensions/src/main/java/org/pentaho/platform/web/http/api/resources/SchedulerResourceUtil.java:291-293 | a non-null file whose extension equals "ktr" ignoring case; see `PdiFileByExtension` and `NullFileIsNotPdi` |
| SchedulerResourceUtil.IsJob | extensions/src/main/java/org/pentaho/platform/web/http/api/resources/SchedulerResourceUtil.java:295-297 | a non-null file whose extension equals "kjb" ignoring case; see `PdiFileByExtension` and `NullFileIsNotPdi` |
| SchedulerResourceUtil.IsPdiFile | extensions/src/main/java/org/pentaho/platform/web/http/api/resources/SchedulerResourceUtil.java:287-289 | a transformation or a job; see `PdiFileByExtension` and `NullFileIsNotPdi` |
| SchedulerResourceUtil.NullFileIsNotPdi | extensions/src/main/java/org/pentaho/platform/web/http/api/resources/SchedulerResourceUtil.java:287-297 | a null file is neither a transformation, a job nor a PDI file |
| SchedulerResourceUtil.ResolveActionId | extensions/src/main/java/org/pentaho/platform/web/http/api/resources/SchedulerResourceUtil.java:299-305 | an action id exists if and only if the input is non-empty and has a non-empty extension |
| SchedulerResourceUtil.ResolveActionIdOfDottedName | extensions/src/main/java/org/pentaho/platform/web/http/api/resources/SchedulerResourceUtil.java:299-305 | a name with extension e resolves to e followed by ".backgroundExecution" |
| SchedulerResourceUtil.ActionIdExtension | extensions/src/main/java/org/pentaho/platform/web/http/api/resources/SchedulerResourceUtil.java:68 | every action id has the extension "backgroundExecution" |
| SchedulerResourceUtil.PutIfAbsent | extensions/src/main/java/org/pentaho/platform/web/http/api/resources/SchedulerResourceUtil.java:275-276 | the key is added; an existing value is kept; no other entry changes |
| SchedulerResourceUtil.PdiSchedulingParameters | extensions/src/main/java/org/pentaho/platform/web/http/api/resources/SchedulerResourceUtil.java:222-278 | the parameter map of `handlePDIScheduling`; its failure, keys and values are stated by `PdiNullFile`, `PdiGivenParametersStored`, `PdiFileKeys`, `PdiFileParametersCopied`, `PdiFileParametersCollected` and `OtherFileParametersMerged` |
| SchedulerResourceUtil.CollectPdiFileParameters | extensions/src/main/java/org/pentaho/platform/web/http/api/resources/SchedulerResourceUtil.java:251-266 | the loop over the parameter keys:<br>- copies every non-empty key as its string after the given run parameters<br>- collects run parameters (only when none were given) and variables, as the provider's lists select |
| SchedulerResourceUtil.HandlePdiScheduling | extensions/src/main/java/org/pentaho/platform/web/http/api/resources/SchedulerResourceUtil.java:222-278 | the method computes the map, or the null-pointer failure, that `PdiSchedulingParameters` gives |
| SchedulerResourceUtil.PdiNullFile | extensions/src/main/java/org/pentaho/platform/web/http/api/resources/SchedulerResourceUtil.java:232-239 | a null file fails only when the provider was found; with no provider the call succeeds |
| SchedulerResourceUtil.PdiGivenParametersStored | extensions/src/main/java/org/pentaho/platform/web/http/api/resources/SchedulerResourceUtil.java:242-244 | given run parameters are stored under the run-parameters key unless the caller's map already has that key |
| SchedulerResourceUtil.PdiFileKeys | extensions/src/main/java/org/pentaho/platform/web/http/api/resources/SchedulerResourceUtil.java:249-276 | the keys of a PDI file's map are exactly its non-empty parameter keys, "directory", "transformation" or "job", the run-parameters key and "variables" |
| SchedulerResourceUtil.PdiFileParametersCopied | extensions/src/main/java/org/pentaho/platform/web/http/api/resources/SchedulerResourceUtil.java:257-270 | a PDI file's map has:<br>- each parameter as its string<br>- the folder under "directory" and the base name under "transformation" or "job"<br>- "transformation" exactly for a transformation |
| SchedulerResourceUtil.PdiFileParametersCollected | extensions/src/main/java/org/pentaho/platform/web/http/api/resources/SchedulerResourceUtil.java:257-276 | with no run parameters given:<br>- the stored run parameters are exactly the non-empty keys the provider knows as parameters, or all of them without a provider<br>- the variables are exactly the keys it knows as variables<br>- each is stored as its string |
| SchedulerResourceUtil.OtherFileParametersMerged | extensions/src/main/java/org/pentaho/platform/web/http/api/resources/SchedulerResourceUtil.java:272-276 | any other file keeps every parameter as it is, adds the run parameters (given or empty) and empty variables only where absent, and has no other keys |
| PrptImportHandler.NormalizeFilePath | extensions/src/org/pentaho/platform/plugin/services/importer/PRPTImportHandler.java:63 | the entry's path is empty exactly for the root, written with either separator, or an empty path; any other path is kept |
| PrptImportHandler.NormalizeFilePathIdempotent | extensions/src/org/pentaho/platform/plugin/services/importer/PRPTImportHandler.java:63 | normalizing twice is normalizing once |
| PrptImportHandler.BlankToNull | extensions/src/org/pentaho/platform/plugin/services/importer/PRPTImportHandler.java:88-98 | null comes out exactly for a null, empty or whitespace-only string; anything else is kept and has a non-whitespace character |
| PrptImportHandler.BlankToNullIdempotent | extensions/src/org/pentaho/platform/plugin/services/importer/PRPTImportHandler.java:88-98 | blanking twice is blanking once |
| PrptImportHandler.ReadString | extensions/src/org/pentaho/platform/plugin/services/importer/PRPTImportHandler.java:88-94 | the `(String)` cast fails exactly for an attribute that is not a string; a string attribute is read as it is; a missing one is null |
| PrptImportHandler.IsReportHidden | extensions/src/org/pentaho/platform/plugin/services/importer/PRPTImportHandler.java:111-114 | a report is hidden if and only if its metadata holds the "visible" attribute of the metadata namespace and that attribute is the string "false" |
| PrptImportHandler.OnlyExactFalseHides | extensions/src/org/pentaho/platform/plugin/services/importer/PRPTImportHandler.java:108-114 | for any metadata whose "visible" attribute is a string, the report is hidden if and only if that string is exactly "false" |
| PrptImportHandler.NoStringVisibleShows | extensions/src/org/pentaho/platform/plugin/services/importer/PRPTImportHandler.java:108-114 | any metadata whose "visible" attribute is missing or is not a string leaves the report visible |
| PrptImportHandler.UpperCaseFalseShows | extensions/src/org/pentaho/platform/plugin/services/importer/PRPTImportHandler.java:111-114 | "FALSE" equals "false" ignoring case, yet a "visible" attribute of "FALSE" leaves the report visible: the test is case-sensitive |
| PrptImportHandler.HiddenReadsOnlyVisible | extensions/src/org/pentaho/platform/plugin/services/importer/PRPTImportHandler.java:111-114 | two metadata with the same "visible" attribute give the same decision, whatever their other attributes |
| PrptImportHandler.LocaleFilesProcessor.CreateLocaleEntry | extensions/src/org/pentaho/platform/plugin/services/importer/PRPTImportHandler.java:100 | the entry is appended to the processor's entries |
| PrptImportHandler.LocaleEntryCreatedIff | extensions/src/org/pentaho/platform/plugin/services/importer/PRPTImportHandler.java:86-102 | an entry is created if and only if both attributes read and one of them is not blank; the entry holds the blank-to-null title and description; a non-string attribute fails |
| PrptImportHandler.LocaleEntryFor | extensions/src/org/pentaho/platform/plugin/services/importer/PRPTImportHandler.java:86-102 | the locale entry `fillLocaleEntry` builds; what it creates and when it fails is stated by `LocaleEntryCreatedIff` |
| PrptImportHandler.FillLocaleEntry | extensions/src/org/pentaho/platform/plugin/services/importer/PRPTImportHandler.java:86-102 | the processor gains exactly the entry `LocaleEntryFor` gives, and a failure is reported |
| PrptImportHandler.RepositoryFileImportBundle.SetHidden | extensions/src/org/pentaho/platform/plugin/services/importer/PRPTImportHandler.java:77 | only the hidden flag changes |
| PrptImportHandler.ImportFile | extensions/src/org/pentaho/platform/plugin/services/importer/PRPTImportHandler.java:56-84 | outcome, bundle afterwards and locale entries are those `ImportEffectOf` gives |
| PrptImportHandler.ImportEffectOf | extensions/src/org/pentaho/platform/plugin/services/importer/PRPTImportHandler.java:56-84 | the effect of `importFile`; its properties are stated by `HiddenFlagKept`, `HiddenFlagDefaulted`, `ImportFailsOnlyThrough` and `LocaleEntryFiledUnderBundle` |
| PrptImportHandler.HiddenFlagKept | extensions/src/org/pentaho/platform/plugin/services/importer/PRPTImportHandler.java:75 | a bundle that carries a hidden flag comes out unchanged |
| PrptImportHandler.HiddenFlagDefaulted | extensions/src/org/pentaho/platform/plugin/services/importer/PRPTImportHandler.java:75-78 | a bundle without a flag whose metadata reads gets the report's hidden decision |
| PrptImportHandler.ImportFailsOnlyThrough | extensions/src/org/pentaho/platform/plugin/services/importer/PRPTImportHandler.java:67-83 | failure cases:<br>- a report that does not parse fails with `extractMetaData`'s fixed message, "An unexpected error occurred while parsing a report definition"<br>- a non-string title or description fails as a class cast<br>- the import passes if and only if the metadata reads and both the generic import and the locale processing pass |
| PrptImportHandler.LocaleEntryFiledUnderBundle | extensions/src/org/pentaho/platform/plugin/services/importer/PRPTImportHandler.java:74 | at most one entry is collected, filed under the bundle's normalized path, name and file, with a title or a description |

## Left out

- Logging, JAXB annotations, serialization ids and `getiPdiContentProvider`'s plugin-manager lookup are left out. The lookup's outcome is an input: either a provider, or the plugin-bean failure that turns on the fallback.
- The provider's `getUserParameters` and `getVariables` are inputs, answered for the file's path.
- A null provider bean is not modelled.
- The cron-utils builder's rendering and `QuartzScheduler.createComplexTrigger` are collaborators, passed in as functions. The cron builder's treatment of `every(0)` is theirs.
- `System.currentTimeMillis()` and `new Date()` are read at different moments in the source. The model reads the clock once, as `now`.
- The time-zone database (`TimeZone`, `Calendar`, `GregorianCalendar`) is a collaborator.
  - `OtherZoneKeepsWallClock` holds only where the database maps the fields back to themselves. Outside that, for example in a daylight-saving gap, a lenient calendar moves the time. That behaviour belongs to the database.
- Case-insensitive comparison covers ASCII letters only. Java's full Unicode case folding is not modelled.
- `FileNames.PathNoEndSeparator` models `FilenameUtils` prefixes only as one leading separator. Drive letters, `~` and UNC prefixes are not modelled.
- Some Java nulls are not modelled:
  - null values inside the parameter map, and a null parameter map;
  - null `int[]` arrays on the complex trigger proxy;
  - a null bundle path. Line 63 of `PRPTImportHandler.java` runs outside the `try`, so a null path would be an unwrapped exception.
- On a complex request, the source reads the UI parameter through `scheduleRequest.getComplexJobTrigger()` again. The model reads the proxy it already holds, which is the same object.
- The `(RepositoryFileImportBundle)` cast at line 57 of `PRPTImportHandler.java` is not modelled. The model takes a bundle of that class.
- Copying the bundle's input stream (lines 69-72 of `PRPTImportHandler.java`) is I/O and is not modelled.
- The report engine's parsing in `extractMetaData` is not modelled: its result is an input.
- Inside `createLocaleEntry`, the model only records the appended entry. Its `IOException` and its other internals are not modelled.
- `processLocaleFiles` and `super.importFile` are collaborators. Their outcomes are inputs.
- The exception messages of the wrapped causes are kept as causes. Java's `getMessage()` chaining is not modelled.
- `ScheduleExportUtil.RUN_PARAMETERS_KEY` is not part of this model. Its value is assumed to be "parameters".
- The namespace constants of the reporting library are written out here. The library itself is not part of this model.
- The trigger classes are not part of this model. They are modelled by the fields and setters the core uses.
- `convertDateToServerTimeZone` reads the calendar fields in the server's default zone and sets them in the requested zone. The model does the same.
- `SchedulerResourceUtil.AddQualifiedRow` and `SchedulerResourceUtil.AddQualifiedDaysOfWeek` split the source's one nested loop into two methods. They keep its order and its first failing lookup.
- `RepositoryFilenameUtils` is not part of this model. `resolveActionId` calls its `getExtension`, which is taken to behave as commons-io's `FilenameUtils.getExtension`, with `/` and `\` both separators.
- The reporting library's `StringUtils.isEmpty(s, true)` is not part of this model. Its trimming is taken to be `String.trim`'s: it removes characters up to U+0020.
- `Instant` values and `long` arithmetic such as `now + 10000` are unbounded integers. The 64-bit wrap of `long` is not modelled.
- The complex trigger proxy's `int[]` arrays are modelled as sequences of unbounded integers. Values outside the `int` range are not excluded, and the Java increments wrap as a 32-bit cast.
- `Triggers.QualifierAt`: the `DayOfWeekQualifier` enumeration is not part of this model. It is taken to have six constants, FIRST, SECOND, THIRD, FOURTH, FIFTH and LAST, with LAST at ordinal 5. The explicit LAST for week 4 at line 116 of `SchedulerResourceUtil.java` points to this. Under that assumption the week values 0..5 are accepted, and every other value fails.
