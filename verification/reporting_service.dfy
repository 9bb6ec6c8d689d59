/**
 * org.mokee.mkparts.stats.ReportingService: the older, directly started
 * upload service. `onStartCommand` starts a new upload task only when the
 * previous one has finished; the task posts the six device fields as a form
 * and, on completion, records the check-in and asks for the next alarm.
 */
module ReportingService {
  import opened Wrappers
  import opened JavaText
  import opened Checkpoint
  import opened Platform
  import Utilities
  import Job = StatsUploadJobService

  /** `Service.START_REDELIVER_INTENT`. */
  const START_REDELIVER_INTENT: int := 3

  const REPORT_URL := "http://stats.mokeedev.com/index.php/Submit/flash"

  /** `AsyncTask.Status`. */
  datatype AsyncStatus = AsyncPending | AsyncRunning | AsyncFinished

  /** Every upload task the service has created, oldest first; `mTask` is the last. */
  datatype Service = Service(tasks: seq<AsyncStatus>)

  const NotStarted := Service([])

  /** At most one upload is in progress: every task but the newest has finished. */
  predicate AtMostOneActive(s: Service) {
    forall i :: 0 <= i < |s.tasks| - 1 ==> s.tasks[i] == AsyncFinished
  }

  /** The number of tasks that have not finished. */
  function ActiveCount(tasks: seq<AsyncStatus>): (n: nat)
    ensures n <= |tasks|
  {
    if tasks == [] then 0
    else ActiveCount(tasks[..|tasks| - 1]) + (if tasks[|tasks| - 1] != AsyncFinished then 1 else 0)
  }

  lemma {:induction false} AtMostOneActiveCount(s: Service)
    requires AtMostOneActive(s)
    ensures ActiveCount(s.tasks) <= 1
  {
    if s.tasks != [] {
      var prefix := s.tasks[..|s.tasks| - 1];
      AllFinishedCount(prefix);
    }
  }

  lemma {:induction false} AllFinishedCount(tasks: seq<AsyncStatus>)
    requires forall i :: 0 <= i < |tasks| ==> tasks[i] == AsyncFinished
    ensures ActiveCount(tasks) == 0
  {
    if tasks != [] {
      AllFinishedCount(tasks[..|tasks| - 1]);
    }
  }

  datatype Command = Command(result: int, started: bool, service: Service)

  /**
   * `onStartCommand`: a new task is created and executed only when there is
   * none yet or the last one has finished; the intent is always to be
   * redelivered.
   */
  function OnStartCommand(s: Service): (c: Command)
    ensures c.result == START_REDELIVER_INTENT
    ensures c.started <==> s.tasks == [] || s.tasks[|s.tasks| - 1] == AsyncFinished
    ensures c.started ==> c.service.tasks == s.tasks + [AsyncRunning]
    ensures !c.started ==> c.service == s
    ensures AtMostOneActive(s) ==> AtMostOneActive(c.service)
  {
    if s.tasks == [] || s.tasks[|s.tasks| - 1] == AsyncFinished then
      Command(START_REDELIVER_INTENT, true, Service(s.tasks + [AsyncRunning]))
    else
      Command(START_REDELIVER_INTENT, false, s)
  }

  /** The task ends (after `onPostExecute`): its status becomes FINISHED. */
  function FinishTask(s: Service, i: nat): (r: Service)
    requires i < |s.tasks|
    ensures |r.tasks| == |s.tasks| && r.tasks[i] == AsyncFinished
    ensures forall j :: 0 <= j < |s.tasks| && j != i ==> r.tasks[j] == s.tasks[j]
    ensures AtMostOneActive(s) ==> AtMostOneActive(r)
  {
    Service(s.tasks[i := AsyncFinished])
  }

  /** However `onStartCommand` and task completions interleave, at most one upload runs. */
  lemma {:induction false} CoalescingKeepsOneUpload(s: Service, steps: seq<nat>)
    requires AtMostOneActive(s)
    ensures ActiveCount(Replay(s, steps).tasks) <= 1
    decreases |steps|
  {
    if steps == [] {
      AtMostOneActiveCount(s);
    } else {
      CoalescingKeepsOneUpload(Step(s, steps[0]), steps[1..]);
    }
  }

  /** One event: 0 is a start command, `k > 0` finishes task `k - 1` if it exists. */
  function Step(s: Service, event: nat): (r: Service)
    ensures AtMostOneActive(s) ==> AtMostOneActive(r)
  {
    if event == 0 then OnStartCommand(s).service
    else if event - 1 < |s.tasks| then FinishTask(s, event - 1)
    else s
  }

  function Replay(s: Service, events: seq<nat>): Service
    decreases |events|
  {
    if events == [] then s else Replay(Step(s, events[0]), events[1..])
  }

  /** The form posted to the collector: the six device fields, in order. */
  function FormFields(dev: Utilities.DeviceInfo): (kv: seq<(string, string)>)
    ensures |kv| == |Job.REPORT_FIELDS|
    ensures forall k :: 0 <= k < |kv| ==> kv[k].0 == Job.REPORT_FIELDS[k]
    ensures kv[0].1 == dev.uniqueId && kv[1].1 == dev.product && kv[2].1 == dev.buildVersion
    ensures kv[3].1 == Utilities.GetCountryCode(dev.countryIso)
    ensures kv[4].1 == Utilities.GetCarrier(dev.operatorName)
    ensures kv[5].1 == Utilities.GetCarrierId(dev.operatorNumeric)
  {
    [ ("device_hash", dev.uniqueId),
      ("device_name", dev.product),
      ("device_version", dev.buildVersion),
      ("device_country", Utilities.GetCountryCode(dev.countryIso)),
      ("device_carrier", Utilities.GetCarrier(dev.operatorName)),
      ("device_carrier_id", Utilities.GetCarrierId(dev.operatorNumeric)) ]
  }

  /** How `httpClient.execute` ended: an IOException, or any response with its content. */
  datatype Outcome = IOError | Response(code: int, content: string)

  datatype Upload = Upload(success: bool, form: seq<(string, string)>, content: Option<string>)

  /** `doInBackground`: success means the POST completed, whatever the HTTP status. */
  function DoInBackground(dev: Utilities.DeviceInfo, outcome: Outcome): (u: Upload)
    ensures u.form == FormFields(dev)
    ensures u.success <==> outcome.Response?
    ensures u.success ==> u.content == Some(outcome.content)
  {
    match outcome
    case IOError => Upload(false, FormFields(dev), None)
    case Response(_, content) => Upload(true, FormFields(dev), Some(content))
  }

  datatype Completion = Completion(prefs: Prefs, effects: seq<Effect>)

  /**
   * `onPostExecute`: on success the check-in time, the flash time and the
   * version code are written and the regular interval is asked for; on
   * failure nothing is written and the 3-hour retry is asked for. The service
   * then stops.
   */
  function OnPostExecute(result: bool, content: Option<string>, p: Prefs, now: int,
                         versionCode: string, extract: string -> Option<string>): (c: Completion)
    ensures result ==> LastChecked(c.prefs) == now
    ensures result ==> c.prefs.flashTime == Some(Job.FlashTimeOf(content, extract))
    ensures result ==> c.prefs.versionCode == Some(versionCode)
    ensures result ==> c.prefs.version == p.version && c.prefs.lastJobId == p.lastJobId
    ensures !result ==> c.prefs == p
    ensures c.effects == [RequestAlarm(if result then 0 else Job.RETRY_INTERVAL), StopSelf]
  {
    if result then
      var flash := Job.FlashTimeOf(content, extract);
      var written := p.(lastChecked := Some(now), flashTime := Some(flash), versionCode := Some(versionCode));
      Completion(written, [RequestAlarm(0), StopSelf])
    else
      Completion(p, [RequestAlarm(Job.RETRY_INTERVAL), StopSelf])
  }

  /** The legacy upload posts the same field names, in the same order, as the job service's query. */
  lemma SameFieldsAsJobService(dev: Utilities.DeviceInfo, extras: Bundle)
    ensures |FormFields(dev)| == |Job.ReportQuery(extras)|
    ensures forall k :: 0 <= k < |FormFields(dev)| ==> FormFields(dev)[k].0 == Job.ReportQuery(extras)[k].0
  {
  }
}
