/**
 * org.mokee.mkparts.stats.UpdatingService: schedules a lightweight UPDATE job
 * carrying the device id, version and the stored flash time.
 */
module UpdatingService {
  import opened Wrappers
  import opened JavaText
  import opened Checkpoint
  import opened Platform
  import Utilities
  import Job = StatsUploadJobService

  /** `StatsUploadJobService.KEY_FLASH_TIME`, which the job service revision shown does not declare. */
  const KEY_FLASH_TIME := "device_flash_time"

  const JOB_SERVICE := "org.mokee.mkparts.stats.StatsUploadJobService"

  const MIN_LATENCY_MILLIS: int := 1000

  /** A scheduled job and the preferences after its id was drawn. */
  datatype Scheduled = Scheduled(job: JobInfo, prefs: Prefs)

  /** `onHandleIntent`. */
  function OnHandleIntent(dev: Utilities.DeviceInfo, p: Prefs): (r: Scheduled)
    ensures var d := Utilities.GetNextJobId(p);
            r.job.jobId == d.id && r.prefs == d.prefs
    ensures r.job.extras.Keys == {Job.KEY_UNIQUE_ID, Job.KEY_VERSION, KEY_FLASH_TIME, Job.KEY_JOB_TYPE}
    ensures GetString(r.job.extras, Job.KEY_UNIQUE_ID) == Some(dev.uniqueId)
    ensures GetString(r.job.extras, Job.KEY_VERSION) == Some(dev.buildVersion)
    ensures GetString(r.job.extras, KEY_FLASH_TIME) == Some(DecimalString(FlashTime(p)))
    ensures GetInt(r.job.extras, Job.KEY_JOB_TYPE) == Job.JOB_TYPE_UPDATE
    ensures r.job.requiredNetwork == NetworkAny
    ensures r.job.minLatencyMillis == MIN_LATENCY_MILLIS && r.job.persisted
    ensures r.job.service == JOB_SERVICE
  {
    var deviceFlashTime := DecimalString(FlashTime(p));
    var d := Utilities.GetNextJobId(p);
    var bundle := map[
      Job.KEY_UNIQUE_ID := StringValue(dev.uniqueId),
      Job.KEY_VERSION := StringValue(dev.buildVersion),
      KEY_FLASH_TIME := StringValue(deviceFlashTime),
      Job.KEY_JOB_TYPE := IntValue(Job.JOB_TYPE_UPDATE)];
    Scheduled(JobInfo(d.id, JOB_SERVICE, NetworkAny, MIN_LATENCY_MILLIS, bundle, true), d.prefs)
  }

  /** The update carries no name, country or carrier. */
  lemma UpdateOmitsIdentityDetails(dev: Utilities.DeviceInfo, p: Prefs)
    ensures var extras := OnHandleIntent(dev, p).job.extras;
            && GetString(extras, Job.KEY_DEVICE_NAME) == None
            && GetString(extras, Job.KEY_COUNTRY) == None
            && GetString(extras, Job.KEY_CARRIER) == None
            && GetString(extras, Job.KEY_CARRIER_ID) == None
  {
  }

  /** The flash-time field reads back, with `Long.valueOf`, as the stored flash time. */
  lemma FlashTimeFieldRoundTrip(dev: Utilities.DeviceInfo, p: Prefs)
    requires LONG_MIN <= FlashTime(p) <= LONG_MAX
    ensures ParseLong(GetString(OnHandleIntent(dev, p).job.extras, KEY_FLASH_TIME).value)
            == Some(FlashTime(p))
  {
    DecimalRoundTrip(FlashTime(p));
  }

  /** The job service accepts an update job but starts no task for it: nothing is uploaded. */
  lemma UpdateJobIsNeverUploaded(dev: Utilities.DeviceInfo, p: Prefs, s: Job.Service, handle: int)
    requires Job.Valid(s)
    ensures var job := OnHandleIntent(dev, p).job;
            Job.OnStartJob(s, Job.JobParams(handle, job.jobId, job.extras)).service == s
  {
  }
}
