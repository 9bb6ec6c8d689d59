/**
 * The "mokee_stats" shared-preferences file: the durable record the stats
 * scheduler reads and writes. A field is `None` while its key is absent;
 * the accessors apply the defaults the readers pass to `getLong`/`getInt`.
 */
module Checkpoint {
  import opened Wrappers

  datatype Prefs = Prefs(
    lastChecked: Option<int>,    // pref_anonymous_checked_in (long)
    flashTime: Option<int>,      // pref_anonymous_flash_time (long)
    version: Option<string>,     // pref_anonymous_version, read by the dispatcher
    versionCode: Option<string>, // the version code written after a successful upload
    lastJobId: Option<int>)      // last_job_id (int)

  /** A device that has never stored anything. */
  const Fresh := Prefs(None, None, None, None, None)

  /** `getLong(ANONYMOUS_LAST_CHECKED, 0)`. */
  function LastChecked(p: Prefs): int {
    p.lastChecked.GetOr(0)
  }

  /** `getLong(ANONYMOUS_FLASH_TIME, 0)`. */
  function FlashTime(p: Prefs): int {
    p.flashTime.GetOr(0)
  }

  /** `getString(ANONYMOUS_VERSION, current)`: the stored version defaults to the current one. */
  function StoredVersion(p: Prefs, current: string): string {
    p.version.GetOr(current)
  }
}
