/**
 * org.cyanogenmod.cmparts.stats.ReportingService: schedules a full REPORT job
 * carrying the six device fields. Its package's own Utilities and
 * StatsUploadJobService are not part of this model; the mkparts ones stand in.
 */
module CmReportingService {
  import opened Wrappers
  import opened Checkpoint
  import opened Platform
  import Utilities
  import Job = StatsUploadJobService

  const JOB_SERVICE := "org.cyanogenmod.cmparts.stats.StatsUploadJobService"

  const MIN_LATENCY_MILLIS: int := 1000

  datatype Scheduled = Scheduled(job: JobInfo, prefs: Prefs)

  /** The six report values, as the accessors return them, in `REPORT_FIELDS` order. */
  function ReportValues(dev: Utilities.DeviceInfo): (vs: seq<string>)
    ensures |vs| == |Job.REPORT_FIELDS|
    ensures vs[0] == dev.uniqueId && vs[1] == dev.product && vs[2] == dev.buildVersion
    ensures vs[3] == Utilities.GetCountryCode(dev.countryIso)
    ensures vs[4] == Utilities.GetCarrier(dev.operatorName)
    ensures vs[5] == Utilities.GetCarrierId(dev.operatorNumeric)
    ensures vs[3] != "" && vs[4] != "" && vs[5] != ""
  {
    [ dev.uniqueId, dev.product, dev.buildVersion,
      Utilities.GetCountryCode(dev.countryIso),
      Utilities.GetCarrier(dev.operatorName),
      Utilities.GetCarrierId(dev.operatorNumeric) ]
  }

  /** `onHandleIntent`. */
  function OnHandleIntent(dev: Utilities.DeviceInfo, p: Prefs): (r: Scheduled)
    ensures var d := Utilities.GetNextJobId(p);
            r.job.jobId == d.id && r.prefs == d.prefs
    ensures r.job.extras.Keys == set k | k in Job.REPORT_FIELDS + [Job.KEY_JOB_TYPE]
    ensures forall k :: 0 <= k < |Job.REPORT_FIELDS| ==>
              GetString(r.job.extras, Job.REPORT_FIELDS[k]) == Some(ReportValues(dev)[k])
    ensures GetInt(r.job.extras, Job.KEY_JOB_TYPE) == Job.JOB_TYPE_REPORT
    ensures r.job.requiredNetwork == NetworkAny
    ensures r.job.minLatencyMillis == MIN_LATENCY_MILLIS && r.job.persisted
    ensures r.job.service == JOB_SERVICE
  {
    var vs := ReportValues(dev);
    var d := Utilities.GetNextJobId(p);
    var bundle := map[
      Job.KEY_UNIQUE_ID := StringValue(vs[0]),
      Job.KEY_DEVICE_NAME := StringValue(vs[1]),
      Job.KEY_VERSION := StringValue(vs[2]),
      Job.KEY_COUNTRY := StringValue(vs[3]),
      Job.KEY_CARRIER := StringValue(vs[4]),
      Job.KEY_CARRIER_ID := StringValue(vs[5]),
      Job.KEY_JOB_TYPE := IntValue(Job.JOB_TYPE_REPORT)];
    assert forall k :: 0 <= k < |Job.REPORT_FIELDS| ==> bundle[Job.REPORT_FIELDS[k]] == StringValue(vs[k]) by {
      forall k | 0 <= k < |Job.REPORT_FIELDS|
        ensures bundle[Job.REPORT_FIELDS[k]] == StringValue(vs[k])
      {
        assert k == 0 || k == 1 || k == 2 || k == 3 || k == 4 || k == 5;
      }
    }
    Scheduled(JobInfo(d.id, JOB_SERVICE, NetworkAny, MIN_LATENCY_MILLIS, bundle, true), d.prefs)
  }

  /**
   * Builder and job service agree: once the platform runs the scheduled job,
   * the job service registers a task and that task's request carries the
   * accessor values verbatim, in the field order.
   */
  lemma ReportReachesServerVerbatim(dev: Utilities.DeviceInfo, p: Prefs, s: Job.Service, handle: int)
    requires Job.Valid(s)
    ensures var job := OnHandleIntent(dev, p).job;
            var jp := Job.JobParams(handle, job.jobId, job.extras);
            && handle in Job.OnStartJob(s, jp).service.registry
            && forall k :: 0 <= k < |Job.REPORT_FIELDS| ==>
                 Job.ReportQuery(job.extras)[k] == (Job.REPORT_FIELDS[k], Some(ReportValues(dev)[k]))
  {
  }
}
