/**
 * org.mokee.mkparts.stats.StatsUploadJobService: the JobService the platform
 * calls for scheduled stats jobs. It keeps a registry (`mReportJobs`) from the
 * job's parameters to the background task uploading for it, cancels that task
 * when the platform stops the job, and on completion records the outcome in
 * the stats preferences and tells the platform whether to retry.
 *
 * Each AsyncTask step is one atomic transition: `OnStartJob` creates and
 * registers a task, `RunBackground` is `doInBackground`, `Deliver` is the
 * main-thread `onPostExecute` (or `onCancelled` for a cancelled task).
 */
module StatsUploadJobService {
  import opened Wrappers
  import opened JavaText
  import opened Checkpoint
  import opened Platform
  import Utilities

  const KEY_JOB_TYPE := "job_type"
  const JOB_TYPE_REPORT: int := 1
  const JOB_TYPE_UPDATE: int := 2

  const REQUEST_TIMEOUT: int := 10000

  const KEY_UNIQUE_ID := "device_hash"
  const KEY_DEVICE_NAME := "device_name"
  const KEY_VERSION := "device_version"
  const KEY_COUNTRY := "device_country"
  const KEY_CARRIER := "device_carrier"
  const KEY_CARRIER_ID := "device_carrier_id"

  /** The report fields, in the order they are appended to the request. */
  const REPORT_FIELDS: seq<string> :=
    [KEY_UNIQUE_ID, KEY_DEVICE_NAME, KEY_VERSION, KEY_COUNTRY, KEY_CARRIER, KEY_CARRIER_ID]

  const HTTP_OK: int := 200

  /** The back-off after a failed upload: three hours. */
  const RETRY_INTERVAL: int := 3 * 60 * 60 * 1000

  /**
   * A `JobParameters` object. The registry compares these by reference, so
   * `handle` stands for the object's identity.
   */
  datatype JobParams = JobParams(handle: int, jobId: int, extras: Bundle)

  /** `getExtras().getInt(KEY_JOB_TYPE)`. */
  function JobType(jp: JobParams): int {
    GetInt(jp.extras, KEY_JOB_TYPE)
  }

  /** How the HTTP exchange ended: an IOException, or a status code and response body. */
  datatype Outcome = IOError | Response(code: int, body: string)

  /** A query string: names with the values passed to `appendQueryParameter` (null allowed). */
  type Query = seq<(string, Option<string>)>

  datatype TaskState =
    | Pending                                  // created and executed, background not yet run
    | Ran(success: bool, body: Option<string>) // doInBackground returned; result not delivered
    | Finished                                 // onPostExecute or onCancelled has run

  datatype Task = Task(params: JobParams, cancelled: bool, state: TaskState)

  /** Every task the service has created, and `mReportJobs` from handle to task index. */
  datatype Service = Service(tasks: seq<Task>, registry: map<int, nat>)

  const Idle := Service([], map[])

  /**
   * The registry only points at live tasks of the same job: each entry names
   * an existing task created for that handle, not cancelled and not finished.
   */
  predicate Valid(s: Service) {
    forall h :: h in s.registry ==>
      && s.registry[h] < |s.tasks|
      && s.tasks[s.registry[h]].params.handle == h
      && !s.tasks[s.registry[h]].cancelled
      && !s.tasks[s.registry[h]].state.Finished?
  }

  datatype Started = Started(result: bool, service: Service)

  /** `onStartJob`: a REPORT job gets a fresh task registered under it; any other type does nothing. */
  function OnStartJob(s: Service, jp: JobParams): (r: Started)
    requires Valid(s)
    ensures Valid(r.service)
    ensures r.result
    ensures JobType(jp) == JOB_TYPE_REPORT ==>
              && r.service.tasks == s.tasks + [Task(jp, false, Pending)]
              && r.service.registry.Keys == s.registry.Keys + {jp.handle}
              && r.service.registry[jp.handle] == |s.tasks|
              && (forall h :: h in s.registry && h != jp.handle ==>
                    r.service.registry[h] == s.registry[h])
    ensures JobType(jp) != JOB_TYPE_REPORT ==> r.service == s
  {
    if JobType(jp) == JOB_TYPE_REPORT then
      var task := Task(jp, false, Pending);
      Started(true, Service(s.tasks + [task], s.registry[jp.handle := |s.tasks|]))
    else
      Started(true, s)
  }

  datatype Stopped = Stopped(reschedule: bool, service: Service)

  /**
   * `onStopJob`: for a REPORT job the registry entry is removed and, when there
   * was one, its task is cancelled and a reschedule is requested.
   */
  function OnStopJob(s: Service, jp: JobParams): (r: Stopped)
    requires Valid(s)
    ensures Valid(r.service)
    ensures r.reschedule <==> JobType(jp) == JOB_TYPE_REPORT && jp.handle in s.registry
    ensures JobType(jp) == JOB_TYPE_REPORT ==> r.service.registry == s.registry - {jp.handle}
    ensures JobType(jp) != JOB_TYPE_REPORT ==> r.service == s
    ensures |r.service.tasks| == |s.tasks|
    ensures forall i :: 0 <= i < |s.tasks| ==>
              r.service.tasks[i] ==
                (if r.reschedule && i == s.registry[jp.handle]
                 then s.tasks[i].(cancelled := true) else s.tasks[i])
  {
    if JobType(jp) == JOB_TYPE_REPORT then
      var registry := s.registry - {jp.handle};
      if jp.handle in s.registry then
        var i := s.registry[jp.handle];
        Stopped(true, Service(s.tasks[i := s.tasks[i].(cancelled := true)], registry))
      else
        Stopped(false, Service(s.tasks, registry))
    else
      Stopped(false, s)
  }

  /** The request of `reportToServer`: the six report fields read from the extras, in order. */
  function ReportQuery(extras: Bundle): (q: Query)
    ensures |q| == |REPORT_FIELDS|
    ensures forall k :: 0 <= k < |q| ==>
              q[k] == (REPORT_FIELDS[k], GetString(extras, REPORT_FIELDS[k]))
  {
    [ (KEY_UNIQUE_ID, GetString(extras, KEY_UNIQUE_ID)),
      (KEY_DEVICE_NAME, GetString(extras, KEY_DEVICE_NAME)),
      (KEY_VERSION, GetString(extras, KEY_VERSION)),
      (KEY_COUNTRY, GetString(extras, KEY_COUNTRY)),
      (KEY_CARRIER, GetString(extras, KEY_CARRIER)),
      (KEY_CARRIER_ID, GetString(extras, KEY_CARRIER_ID)) ]
  }

  /** What `doInBackground` produced: its result, the request it sent, the body it kept. */
  datatype Background = Background(success: bool, request: Option<Query>, body: Option<string>)

  /**
   * `doInBackground`: a task already cancelled sends nothing and fails;
   * otherwise it sends the report and succeeds exactly on HTTP 200, an
   * IOException counting as failure.
   */
  function DoInBackground(extras: Bundle, cancelled: bool, outcome: Outcome): (b: Background)
    ensures cancelled ==> b.request == None && !b.success
    ensures !cancelled ==> b.request == Some(ReportQuery(extras))
    ensures b.success <==> !cancelled && outcome.Response? && outcome.code == HTTP_OK
    ensures b.success ==> b.body == Some(outcome.body)
  {
    if cancelled then Background(false, None, None)
    else
      match outcome
      case IOError => Background(false, Some(ReportQuery(extras)), None)
      case Response(code, body) =>
        var success := code == HTTP_OK;
        Background(success, Some(ReportQuery(extras)), if success then Some(body) else None)
  }

  datatype BackgroundStep = BackgroundStep(service: Service, request: Option<Query>)

  /** Runs the background half of task `i`; the registry is untouched. */
  function RunBackground(s: Service, i: nat, outcome: Outcome): (r: BackgroundStep)
    requires Valid(s)
    requires i < |s.tasks| && s.tasks[i].state == Pending
    ensures Valid(r.service)
    ensures r.service.registry == s.registry
    ensures r.request == DoInBackground(s.tasks[i].params.extras, s.tasks[i].cancelled, outcome).request
    ensures |r.service.tasks| == |s.tasks|
    ensures forall j :: 0 <= j < |s.tasks| && j != i ==> r.service.tasks[j] == s.tasks[j]
    ensures var b := DoInBackground(s.tasks[i].params.extras, s.tasks[i].cancelled, outcome);
            r.service.tasks[i] == s.tasks[i].(state := Ran(b.success, b.body))
  {
    var t := s.tasks[i];
    var b := DoInBackground(t.params.extras, t.cancelled, outcome);
    BackgroundStep(Service(s.tasks[i := t.(state := Ran(b.success, b.body))], s.registry), b.request)
  }

  /**
   * The flash time read from a successful response: `device_flash_time`
   * extracted from the JSON body (`extract` stands for the JSON parsing) and
   * parsed with `Long.valueOf`; 0 when any step fails.
   */
  function FlashTimeOf(body: Option<string>, extract: string -> Option<string>): (t: int)
    ensures LONG_MIN <= t <= LONG_MAX
    ensures body.None? || extract(body.value).None? ==> t == 0
    ensures body.Some? && extract(body.value).Some? ==>
              var f := extract(body.value).value;
              && (ParseLong(f).None? ==> t == 0)
              && (ParseLong(f).Some? ==> t == ParseLong(f).value)
  {
    match body
    case None => 0
    case Some(b) =>
      match extract(b)
      case None => 0
      case Some(field) => ParseLong(field).GetOr(0)
  }

  /** A flash time the server sends as decimal text is the one recorded. */
  lemma FlashTimeReadsServerValue(body: string, extract: string -> Option<string>, n: int)
    requires LONG_MIN <= n <= LONG_MAX
    requires extract(body) == Some(DecimalString(n))
    ensures FlashTimeOf(Some(body), extract) == n
  {
    DecimalRoundTrip(n);
  }

  /** The preferences written and the calls made by a completion. */
  datatype Completion = Completion(prefs: Prefs, effects: seq<Effect>)

  /**
   * `onPostExecute`: on success the flash time and version code are stored
   * and the regular interval is asked for; on failure nothing but the
   * check-in time is stored and the 3-hour retry is asked for. Either way the
   * check-in time becomes `now` and the job is finished, asking for a
   * reschedule exactly when the upload failed.
   */
  function OnPostExecute(handle: int, result: bool, body: Option<string>, p: Prefs, now: int,
                         versionCode: string, extract: string -> Option<string>): (c: Completion)
    ensures LastChecked(c.prefs) == now
    ensures result ==> c.prefs.flashTime == Some(FlashTimeOf(body, extract))
    ensures result ==> c.prefs.versionCode == Some(versionCode)
    ensures !result ==> c.prefs.flashTime == p.flashTime && c.prefs.versionCode == p.versionCode
    ensures c.prefs.version == p.version && c.prefs.lastJobId == p.lastJobId
    ensures |c.effects| == 2
    ensures c.effects[0] == RequestAlarm(if result then 0 else RETRY_INTERVAL)
    ensures c.effects[1] == JobFinished(handle, !result)
  {
    var interval := if result then 0 else RETRY_INTERVAL;
    var written :=
      if result then p.(flashTime := Some(FlashTimeOf(body, extract)), versionCode := Some(versionCode))
      else p;
    var synced := Utilities.UpdateLastSynced(written, now);
    Completion(synced, [RequestAlarm(interval), JobFinished(handle, !result)])
  }

  datatype Delivered = Delivered(service: Service, prefs: Prefs, effects: seq<Effect>)

  /**
   * Delivers the result of task `i` on the main thread. A cancelled task gets
   * `onCancelled`, which this service does not override: nothing is written
   * and nothing is called. Otherwise `onPostExecute` runs and the task's
   * registry entry is removed.
   */
  function Deliver(s: Service, i: nat, p: Prefs, now: int, versionCode: string,
                   extract: string -> Option<string>): (d: Delivered)
    requires Valid(s)
    requires i < |s.tasks| && s.tasks[i].state.Ran?
    ensures Valid(d.service)
    ensures d.service.tasks == s.tasks[i := s.tasks[i].(state := Finished)]
    ensures s.tasks[i].cancelled ==> d.prefs == p && d.effects == [] && d.service.registry == s.registry
    ensures !s.tasks[i].cancelled ==>
              var t := s.tasks[i];
              && d.service.registry == s.registry - {t.params.handle}
              && Completion(d.prefs, d.effects)
                 == OnPostExecute(t.params.handle, t.state.success, t.state.body, p, now, versionCode, extract)
  {
    var t := s.tasks[i];
    var tasks := s.tasks[i := t.(state := Finished)];
    if t.cancelled then
      Delivered(Service(tasks, s.registry), p, [])
    else
      var c := OnPostExecute(t.params.handle, t.state.success, t.state.body, p, now, versionCode, extract);
      Delivered(Service(tasks, s.registry - {t.params.handle}), c.prefs, c.effects)
  }

  /**
   * Cancellation safety: a job stopped before its task ran makes no request,
   * and its task's completion writes no preference and calls nothing.
   */
  lemma StoppedJobNeverWrites(s: Service, jp: JobParams, outcome: Outcome, p: Prefs, now: int,
                              versionCode: string, extract: string -> Option<string>)
    requires Valid(s)
    requires JobType(jp) == JOB_TYPE_REPORT && jp.handle in s.registry
    requires s.tasks[s.registry[jp.handle]].state == Pending
    ensures var i := s.registry[jp.handle];
            var stopped := OnStopJob(s, jp);
            var ran := RunBackground(stopped.service, i, outcome);
            var done := Deliver(ran.service, i, p, now, versionCode, extract);
            && stopped.reschedule
            && ran.request == None
            && done.prefs == p && done.effects == []
  {
  }

  /** A job stopped after its upload ran, but before delivery, still writes nothing. */
  lemma StoppedBeforeDeliveryNeverWrites(s: Service, jp: JobParams, p: Prefs, now: int,
                                         versionCode: string, extract: string -> Option<string>)
    requires Valid(s)
    requires JobType(jp) == JOB_TYPE_REPORT && jp.handle in s.registry
    requires s.tasks[s.registry[jp.handle]].state.Ran?
    ensures var i := s.registry[jp.handle];
            var stopped := OnStopJob(s, jp);
            var done := Deliver(stopped.service, i, p, now, versionCode, extract);
            done.prefs == p && done.effects == []
  {
  }

  /** An UPDATE job is accepted but starts no task, so it can never upload anything. */
  lemma UpdateJobRunsNothing(s: Service, jp: JobParams)
    requires Valid(s)
    requires JobType(jp) == JOB_TYPE_UPDATE
    ensures OnStartJob(s, jp).service == s
    ensures !OnStopJob(s, jp).reschedule
  {
  }

  /**
   * A REPORT job that runs to completion undisturbed ends unregistered and
   * finishes with a reschedule request exactly when the server did not
   * answer 200; a 200 records the flash time the body carries.
   */
  lemma ReportJobLifecycle(s: Service, jp: JobParams, outcome: Outcome, p: Prefs, now: int,
                           versionCode: string, extract: string -> Option<string>)
    requires Valid(s)
    requires JobType(jp) == JOB_TYPE_REPORT
    ensures var started := OnStartJob(s, jp);
            var i := |s.tasks|;
            var ran := RunBackground(started.service, i, outcome);
            var done := Deliver(ran.service, i, p, now, versionCode, extract);
            var ok := outcome.Response? && outcome.code == HTTP_OK;
            && ran.request == Some(ReportQuery(jp.extras))
            && jp.handle !in done.service.registry
            && done.effects == [RequestAlarm(if ok then 0 else RETRY_INTERVAL), JobFinished(jp.handle, !ok)]
            && LastChecked(done.prefs) == now
            && (ok ==> FlashTime(done.prefs) == FlashTimeOf(Some(outcome.body), extract))
            && (!ok ==> done.prefs.flashTime == p.flashTime)
  {
  }
}
