/**
 * org.mokee.mkparts.stats.ReportingServiceManager: the broadcast receiver
 * that decides, from the stats preferences, whether to start an upload now
 * or to arm a wake-up alarm. `setAlarm` and `launchService` call each other;
 * the `decreases` measures below are the proof that this recursion is at most
 * one level deep.
 */
module ReportingServiceManager {
  import opened Wrappers
  import opened Checkpoint
  import opened Platform
  import Utilities
  import Job = StatsUploadJobService

  const MILLIS_PER_HOUR: int := 60 * 60 * 1000
  const MILLIS_PER_DAY: int := 24 * MILLIS_PER_HOUR
  const UPDATE_INTERVAL: int := 3 * MILLIS_PER_DAY

  const ACTION_BOOT_COMPLETED := "android.intent.action.BOOT_COMPLETED"
  const ACTION_LAUNCH_SERVICE := "org.mokee.mkparts.action.TRIGGER_REPORT_METRICS"

  /**
   * What the receiver reads from outside the preferences: the wall clock
   * (one reading serves every `System.currentTimeMillis()` of a call),
   * connectivity, and `Build.VERSION`.
   */
  datatype Env = Env(now: int, online: bool, buildVersion: string)

  function CurrentVersion(env: Env): string {
    Utilities.GetVersion(env.buildVersion)
  }

  /**
   * The stored version differs from the running one; an absent stored
   * version reads as the running one, so it never counts as a change.
   */
  function VersionChanged(p: Prefs, env: Env): (changed: bool)
    ensures changed <==> p.version.Some? && p.version.value != CurrentVersion(env)
  {
    CurrentVersion(env) != StoredVersion(p, CurrentVersion(env))
  }

  /** The condition under which `setAlarm` hands over to `launchService`. */
  predicate NeverSyncedOrNewVersion(p: Prefs, env: Env) {
    LastChecked(p) == 0 || VersionChanged(p, env)
  }

  /** `shouldSync` in `launchService`. */
  function ShouldSync(p: Prefs, env: Env): (due: bool)
    ensures NeverSyncedOrNewVersion(p, env) ==> due
    ensures !due <==> LastChecked(p) != 0 && env.now < LastChecked(p) + UPDATE_INTERVAL
                      && !VersionChanged(p, env)
  {
    LastChecked(p) == 0
    || env.now - LastChecked(p) >= UPDATE_INTERVAL
    || VersionChanged(p, env)
  }

  /** The service a due sync starts: the full report until a flash time is known. */
  function SyncService(p: Prefs): (e: Effect)
    ensures e == StartReporting <==> FlashTime(p) == 0
    ensures e == StartReporting || e == StartUpdating
  {
    if FlashTime(p) == 0 then StartReporting else StartUpdating
  }

  /** `setAlarm(ctx)`. */
  function SetAlarm(p: Prefs, env: Env): (effects: seq<Effect>)
    decreases if NeverSyncedOrNewVersion(p, env) then 2 else 0
    ensures !NeverSyncedOrNewVersion(p, env) ==>
              effects == [ArmAlarm(LastChecked(p) + UPDATE_INTERVAL)]
    ensures NeverSyncedOrNewVersion(p, env) ==>
              effects == (if env.online then [SyncService(p)] else [])
  {
    if NeverSyncedOrNewVersion(p, env) then
      LaunchService(p, env)
    else
      var millisFromNow := (LastChecked(p) + UPDATE_INTERVAL) - env.now;
      [ArmAlarm(env.now + millisFromNow)]
  }

  /** `launchService(ctx)`. */
  function LaunchService(p: Prefs, env: Env): (effects: seq<Effect>)
    decreases 1
    ensures !env.online ==> effects == []
    ensures env.online && ShouldSync(p, env) ==> effects == [SyncService(p)]
    ensures env.online && !ShouldSync(p, env) ==>
              effects == [ArmAlarm(LastChecked(p) + UPDATE_INTERVAL)]
  {
    if !env.online then []
    else if ShouldSync(p, env) then [SyncService(p)]
    else SetAlarm(p, env)
  }

  /** `onReceive`: boot re-arms the alarm, every other broadcast tries to launch. */
  function OnReceive(action: string, p: Prefs, env: Env): (effects: seq<Effect>)
    ensures action == ACTION_BOOT_COMPLETED ==> effects == SetAlarm(p, env)
    ensures action != ACTION_BOOT_COMPLETED ==> effects == LaunchService(p, env)
    ensures |effects| <= 1
  {
    if action == ACTION_BOOT_COMPLETED then SetAlarm(p, env) else LaunchService(p, env)
  }

  /**
   * The recursion is one level deep: when `setAlarm` delegates, the sync is
   * due, so `launchService` starts a service or does nothing; when
   * `launchService` delegates, `setAlarm` finds a previous sync and the same
   * version, so it arms the alarm.
   */
  lemma RecursionDepthAtMostOne(p: Prefs, env: Env)
    ensures NeverSyncedOrNewVersion(p, env) ==> ShouldSync(p, env)
  {
  }

  /** An alarm armed on the way through `launchService` always lies in the future. */
  lemma LaunchAlarmIsInFuture(p: Prefs, env: Env, t: int)
    requires ArmAlarm(t) in LaunchService(p, env)
    ensures t == LastChecked(p) + UPDATE_INTERVAL
    ensures t > env.now
  {
  }

  /** No service is ever started while offline, whichever broadcast arrives. */
  lemma OfflineStartsNothing(action: string, p: Prefs, env: Env)
    requires !env.online
    ensures StartReporting !in OnReceive(action, p, env)
    ensures StartUpdating !in OnReceive(action, p, env)
  {
  }

  /**
   * While the stored version key is absent, the version never counts as
   * changed: only the timestamp drives the decision.
   */
  lemma AbsentVersionNeverTriggers(p: Prefs, env: Env)
    requires p.version == None
    ensures !VersionChanged(p, env)
    ensures ShouldSync(p, env) <==>
              LastChecked(p) == 0 || env.now - LastChecked(p) >= UPDATE_INTERVAL
  {
  }

  /**
   * After a job's completion at `now` (not 0), a later `setAlarm(ctx)` (the
   * boot path) with the version unchanged arms the next check one interval
   * after `now`, on failure too, because the completion recorded `now`. A sync
   * falling due then starts the lightweight update once a non-zero flash time
   * came back.
   */
  lemma CompletionArmsNextCheck(handle: int, result: bool, body: Option<string>, p: Prefs,
                                versionCode: string, extract: string -> Option<string>, env: Env)
    requires env.now != 0 && !VersionChanged(p, env)
    ensures var c := Job.OnPostExecute(handle, result, body, p, env.now, versionCode, extract);
            && SetAlarm(c.prefs, env) == [ArmAlarm(env.now + UPDATE_INTERVAL)]
            && (result && Job.FlashTimeOf(body, extract) != 0 ==> SyncService(c.prefs) == StartUpdating)
            && (!result ==> SyncService(c.prefs) == SyncService(p))
  {
    var c := Job.OnPostExecute(handle, result, body, p, env.now, versionCode, extract);
    assert c.prefs.version == p.version;
  }
}
