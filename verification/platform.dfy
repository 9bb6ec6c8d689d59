/**
 * The Android services the stats core talks to, reduced to values: the
 * `PersistableBundle` a job carries, the `JobInfo` handed to `JobScheduler`,
 * and the side effects (service starts, alarms, job callbacks) that the
 * decision functions return instead of performing.
 */
module Platform {
  import opened Wrappers

  /** The values a `PersistableBundle` holds in this core. */
  datatype BundleValue = StringValue(s: string) | IntValue(i: int)

  type Bundle = map<string, BundleValue>

  /** `BaseBundle.getString`: null when the key is missing or holds another type. */
  function GetString(b: Bundle, key: string): (r: Option<string>)
    ensures r.Some? <==> key in b && b[key].StringValue?
    ensures r.Some? ==> b[key] == StringValue(r.value)
  {
    if key in b && b[key].StringValue? then Some(b[key].s) else None
  }

  /** `BaseBundle.getInt`: 0 when the key is missing or holds another type. */
  function GetInt(b: Bundle, key: string): (r: int)
    ensures key in b && b[key].IntValue? ==> r == b[key].i
    ensures !(key in b && b[key].IntValue?) ==> r == 0
  {
    if key in b && b[key].IntValue? then b[key].i else 0
  }

  datatype NetworkType = NetworkNone | NetworkAny | NetworkUnmetered

  /** The parts of a `JobInfo` the core sets through `JobInfo.Builder`. */
  datatype JobInfo = JobInfo(
    jobId: int,
    service: string,
    requiredNetwork: NetworkType,
    minLatencyMillis: int,
    extras: Bundle,
    persisted: bool)

  /** What the core asks of the platform. */
  datatype Effect =
    | StartReporting                      // startServiceAsUser(ReportingService)
    | StartUpdating                       // startServiceAsUser(UpdatingService)
    | ArmAlarm(triggerAtMillis: int)      // AlarmManager.set(RTC_WAKEUP, ...)
    | RequestAlarm(intervalMillis: int)   // ReportingServiceManager.setAlarm(ctx, interval)
    | JobFinished(handle: int, needsReschedule: bool)
    | StopSelf
    | ScheduleJob(job: JobInfo)
}
