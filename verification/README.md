# MKParts stats scheduling and push targeting, in Dafny

This project models the decision logic of two background subsystems of MoKee's
MKParts settings application, and proves properties of that model.

- **Anonymous statistics.**
  - `ReportingServiceManager` decides, from the stats preferences (last check-in,
    stored flash time, stored version), whether to start an upload now or to arm a
    wake-up alarm. `setAlarm` and `launchService` call each other; a `decreases`
    measure proves the recursion is at most one level deep.
  - Two `IntentService`s build the job bundles:
    - `ReportingService` (cmparts) builds a full REPORT job;
    - `UpdatingService` builds a lightweight UPDATE job.
  - `StatsUploadJobService` is the job shim. It keeps a registry from job to
    upload task, cancels on `onStopJob`, and records the outcome in the
    preferences.
  - The older `ReportingService` (mkparts) uploads directly. It coalesces start
    commands so that at most one upload runs.
  - `Utilities` holds the accessor fallbacks and the cyclic job-id counter
    (1..1000).
- **Push messages.**
  - `PushingUtils.verifyPush` matches a comma-separated target list, ignoring
    case. It follows Java's `String.split` exactly, trailing-empty removal included.
  - `PushingMessageReceiver` filters a message and decides which notification to
    post.
  - `MKPartsApplication` registers the push alias and tags once, retries after a
    timeout, and converges.
- **Seek-bar preference.** `IntervalSeekBarPreference` clamps and snaps a
  seek-bar position to the interval grid.

Every platform service is a value here:
- the clock, connectivity and `Build` fields are inputs;
- `SharedPreferences` is a record of optional fields;
- alarms, service starts, job callbacks, scheduled `JobInfo`s, handler messages
  and notifications are returned effects;
- HTTP outcomes and JSON parsing are parameters (`Outcome`, `extract`, `parse`).

Support modules:
- `Wrappers` holds `Option`.
- `JavaText` holds the Java string semantics the code relies on, each with its
  own lemmas: `TextUtils.isEmpty`, `toLowerCase(Locale.ENGLISH)` on ASCII,
  `String.split`, `String.valueOf(long)` and `Long.valueOf`.
- `Platform` holds bundles, `JobInfo` and effects.
- `Checkpoint` holds the stats preference record.

Behaviour of this revision worth knowing:
- An offline `launchService` does nothing at all. It does not schedule a retry.
- The regular interval is three days.
- The job service counts only HTTP 200 as success. The older service counts any
  completed POST as success, whatever the status.
- The job service records the check-in time on failure as well as on success
  (`updateLastSynced` runs unconditionally). So after a failed upload only the
  3-hour alarm request brings the next attempt forward; the scheduler's own
  `setAlarm(ctx)` would wait the full interval from the failed attempt.
- The older service records the check-in time only on success.

## Model

| member | source | states |
|---|---|---|
| Utilities.GetCarrier | src/org/mokee/mkparts/stats/Utilities.java:33-37 | the operator name, or "Unknown" exactly when it is null or empty; never empty |
| Utilities.GetCarrierId | src/org/mokee/mkparts/stats/Utilities.java:39-43 | the numeric operator, or "0" exactly when it is null or empty; never empty |
| Utilities.GetCountryCode | src/org/mokee/mkparts/stats/Utilities.java:45-49 | the network country code, or "Unknown" exactly when it is null or empty; never empty |
| Utilities.GetVersion | src/org/mokee/mkparts/stats/Utilities.java:51-53 | a MoKee build version (prefix "MK") is kept, any other becomes "Unknown"; the result is always one of the two kinds |
| Utilities.IsWifiOnly | src/org/mokee/mkparts/stats/Utilities.java:81-85 | true exactly when the device does not support mobile data |
| Utilities.UpdateLastSynced | src/org/mokee/mkparts/stats/Utilities.java:55-59 | the last check-in becomes `now` and no other preference changes |
| Utilities.GetLastJobId | src/org/mokee/mkparts/stats/Utilities.java:61-63 | the stored job id, 0 when none was stored |
| Utilities.GetNextJobId | src/org/mokee/mkparts/stats/Utilities.java:65-79 | the successor of the stored id, wrapping to 1 from 1000 upward; the new id is what gets stored; from a stored id in range the result stays in 1..1000 |
| Utilities.DrawIdsCycle | src/org/mokee/mkparts/stats/Utilities.java:70-79 | the i-th of n consecutive draws from a stored id s is (s + i) mod 1000 + 1: ids cycle through 1..1000 |
| Utilities.FreshCounterWraps | src/org/mokee/mkparts/stats/Utilities.java:28-29 | on a fresh device the first 1000 ids are 1..1000 in order and the next one is 1 again |
| ReportingServiceManager.SyncService | src/org/mokee/mkparts/stats/ReportingServiceManager.java:91-99 | a due sync starts the full report exactly when the stored flash time is absent or 0, and the update service otherwise |
| ReportingServiceManager.SetAlarm | src/org/mokee/mkparts/stats/ReportingServiceManager.java:55-74 | never synced or a new version: hand over to launchService (one start when online, nothing offline); otherwise arm the alarm at last check-in plus three days |
| ReportingServiceManager.LaunchService | src/org/mokee/mkparts/stats/ReportingServiceManager.java:76-104 | offline: nothing; online and due (never synced, three days passed, or new version): start the sync service; otherwise arm the alarm at last check-in plus three days |
| ReportingServiceManager.OnReceive | src/org/mokee/mkparts/stats/ReportingServiceManager.java:46-53 | boot re-arms via setAlarm, every other broadcast goes to launchService; at most one effect |
| ReportingServiceManager.RecursionDepthAtMostOne | src/org/mokee/mkparts/stats/ReportingServiceManager.java:61-64 | whenever setAlarm delegates to launchService the sync is due, so launchService starts a service (or does nothing offline) and never calls back; the depth bound itself is the `decreases` measure on SetAlarm and LaunchService |
| ReportingServiceManager.LaunchAlarmIsInFuture | src/org/mokee/mkparts/stats/ReportingServiceManager.java:86-101 | an alarm armed on the way through launchService is at last check-in plus three days and strictly after now |
| ReportingServiceManager.OfflineStartsNothing | src/org/mokee/mkparts/stats/ReportingServiceManager.java:77 | no broadcast starts an upload or update service while offline |
| ReportingServiceManager.AbsentVersionNeverTriggers | src/org/mokee/mkparts/stats/ReportingServiceManager.java:60-61 | with no stored version the version never counts as changed, so only the timestamp decides |
| ReportingServiceManager.VersionChanged | src/org/mokee/mkparts/stats/ReportingServiceManager.java:59-61 | the version counts as changed exactly when a version is stored and differs from the running one; an absent stored version never counts |
| ReportingServiceManager.ShouldSync | src/org/mokee/mkparts/stats/ReportingServiceManager.java:79-90 | a sync is not due exactly when a previous sync exists, less than three days have passed and the version is unchanged; whatever makes setAlarm delegate makes it due |
| ReportingServiceManager.CompletionArmsNextCheck | src/org/mokee/mkparts/stats/StatsUploadJobService.java:194 | a later boot-time setAlarm(ctx) after a completion at now, with the version unchanged, arms three days after now, on failure too, because the completion recorded now; after a success with a non-zero flash time a due sync starts the update service; a failure keeps the previous choice |
| StatsUploadJobService.OnStartJob | src/org/mokee/mkparts/stats/StatsUploadJobService.java:59-72 | a REPORT job appends a new pending task and registers it under the job, leaving other entries alone; other job types change nothing; the answer is always true; the registry invariant is kept |
| StatsUploadJobService.OnStopJob | src/org/mokee/mkparts/stats/StatsUploadJobService.java:74-93 | a REPORT job loses its registry entry; its task, if registered, is cancelled, and a reschedule is asked for exactly then; nothing else changes |
| StatsUploadJobService.ReportQuery | src/org/mokee/mkparts/stats/StatsUploadJobService.java:108-115 | the request carries the six report fields in order, each with the bundle's string for it (null when absent) |
| StatsUploadJobService.DoInBackground | src/org/mokee/mkparts/stats/StatsUploadJobService.java:105-171 | a cancelled task sends nothing; otherwise it sends the report; success exactly on HTTP 200, an IOException failing; a success keeps the response body |
| StatsUploadJobService.RunBackground | src/org/mokee/mkparts/stats/StatsUploadJobService.java:105-131 | only task i changes, to the result of doInBackground; the registry and its invariant are kept |
| StatsUploadJobService.FlashTimeOf | src/org/mokee/mkparts/stats/StatsUploadJobService.java:180-185 | always within the 64-bit long range; 0 when there is no body, the member is missing or Long.valueOf rejects it; otherwise the parsed value |
| StatsUploadJobService.FlashTimeReadsServerValue | src/org/mokee/mkparts/stats/StatsUploadJobService.java:180-182 | a flash time the server sends as the decimal text of a long is read back as exactly that long |
| StatsUploadJobService.OnPostExecute | src/org/mokee/mkparts/stats/StatsUploadJobService.java:173-198 | the check-in becomes now; success stores flash time and version code and asks for the regular interval; failure keeps them and asks for the 3-hour retry; the job finishes, asking for a reschedule exactly on failure |
| StatsUploadJobService.Deliver | src/org/mokee/mkparts/stats/StatsUploadJobService.java:173-198 | a cancelled task's completion writes and calls nothing; otherwise onPostExecute runs and the job leaves the registry |
| StatsUploadJobService.StoppedJobNeverWrites | src/org/mokee/mkparts/stats/StatsUploadJobService.java:75-86 | a job stopped before its task ran is rescheduled, sends no request, and its completion writes no preference and calls nothing |
| StatsUploadJobService.StoppedBeforeDeliveryNeverWrites | src/org/mokee/mkparts/stats/StatsUploadJobService.java:80-85 | a job stopped after its upload but before delivery still writes and calls nothing |
| StatsUploadJobService.UpdateJobRunsNothing | src/org/mokee/mkparts/stats/StatsUploadJobService.java:68-69 | an UPDATE job changes nothing on start and asks for no reschedule on stop |
| StatsUploadJobService.ReportJobLifecycle | src/org/mokee/mkparts/stats/StatsUploadJobService.java:59-198 | an undisturbed REPORT job sends the report, ends unregistered, finishes with a reschedule exactly when the answer was not 200, and records now and, on 200, the body's flash time |
| ReportingService.AtMostOneActiveCount | src/org/mokee/mkparts/stats/ReportingService.java:58-61 | when every task but the newest has finished, at most one task is unfinished |
| ReportingService.AllFinishedCount | src/org/mokee/mkparts/stats/ReportingService.java:58 | a task list with every task finished has no unfinished task |
| ReportingService.OnStartCommand | src/org/mokee/mkparts/stats/ReportingService.java:54-64 | a new task starts exactly when there is none or the last one finished; the intent is always to be redelivered; the at-most-one-active invariant is kept |
| ReportingService.FinishTask | src/org/mokee/mkparts/stats/ReportingService.java:112-138 | a task's end marks it finished, leaves every other task as it was, and keeps the invariant |
| ReportingService.Step | src/org/mokee/mkparts/stats/ReportingService.java:54-64 | a start command or a task's end keeps the at-most-one-active invariant |
| ReportingService.CoalescingKeepsOneUpload | src/org/mokee/mkparts/stats/ReportingService.java:58-61 | however start commands and completions interleave, at most one upload is unfinished |
| ReportingService.FormFields | src/org/mokee/mkparts/stats/ReportingService.java:73-99 | the posted form has the six report field names in order, with id, product, version and the three accessor values |
| ReportingService.DoInBackground | src/org/mokee/mkparts/stats/ReportingService.java:70-110 | the form is always the six fields; success exactly when the POST returned a response, whatever its status; a success keeps the content |
| ReportingService.OnPostExecute | src/org/mokee/mkparts/stats/ReportingService.java:112-138 | success stores now, the flash time and the version code and asks for the regular interval; failure stores nothing and asks for the 3-hour retry; the service always stops |
| ReportingService.SameFieldsAsJobService | src/org/mokee/mkparts/stats/ReportingService.java:93-99 | the older service posts the same field names, in the same order, as the job service's query |
| UpdatingService.OnHandleIntent | src/org/mokee/mkparts/stats/UpdatingService.java:37-65 | the job takes the next job id, carries exactly id, version, flash time as decimal text and type UPDATE, and is persisted, on any network, after one second |
| UpdatingService.UpdateOmitsIdentityDetails | src/org/mokee/mkparts/stats/UpdatingService.java:48-55 | the update bundle has no name, country, carrier or carrier id |
| UpdatingService.FlashTimeFieldRoundTrip | src/org/mokee/mkparts/stats/UpdatingService.java:43 | the flash-time text read back with Long.valueOf gives the stored flash time |
| UpdatingService.UpdateJobIsNeverUploaded | src/org/mokee/mkparts/stats/UpdatingService.java:54-55 | the job service starts no task for the scheduled update job |
| CmReportingService.ReportValues | src/org/cyanogenmod/cmparts/stats/ReportingService.java:41-46 | the six values in field order: unique id, product, build version, then the country, carrier and carrier id through their fallbacks, the last three never empty |
| CmReportingService.OnHandleIntent | src/org/cyanogenmod/cmparts/stats/ReportingService.java:37-71 | the job takes the next job id, carries exactly the six report fields with the accessor values and type REPORT, and is persisted, on any network, after one second |
| CmReportingService.ReportReachesServerVerbatim | src/org/cyanogenmod/cmparts/stats/ReportingService.java:51-61 | the scheduled job is registered by the job service, and its query carries the accessor values verbatim, in field order |
| PushingUtils.AnyMatch | src/org/mokee/mkparts/push/PushingUtils.java:36-41 | true exactly when some entry equals the value, ignoring letter case |
| PushingUtils.VerifyPush | src/org/mokee/mkparts/push/PushingUtils.java:34-42 | true exactly when some entry of the list split at commas equals the value, ignoring case |
| PushingUtils.VerifyPushSingle | src/org/mokee/mkparts/push/PushingUtils.java:34-42 | a list without commas matches exactly the values equal to it ignoring case |
| PushingUtils.VerifyPushIgnoresCase | src/org/mokee/mkparts/push/PushingUtils.java:37 | arguments that agree up to case give the same answer |
| PushingUtils.VerifyPushOfLowered | src/org/mokee/mkparts/push/PushingUtils.java:37 | lower-casing either argument first changes nothing |
| PushingUtils.LowerIdempotent | src/org/mokee/mkparts/push/PushingUtils.java:37 | lower-casing twice is lower-casing once |
| PushingUtils.VerifyPushAppend | src/org/mokee/mkparts/push/PushingUtils.java:35 | appending another entry to a non-empty list keeps every match |
| PushingUtils.EmptyListQuirk | src/org/mokee/mkparts/push/PushingUtils.java:35 | the empty list matches the empty value but the list "," does not |
| PushingUtils.GetStringFromJsonOr | src/org/mokee/mkparts/push/PushingUtils.java:48-57 | a string member is returned, another non-null member as its text, an absent or null member gives the default |
| PushingUtils.GetStringFromJson | src/org/mokee/mkparts/push/PushingUtils.java:44-46 | non-null exactly when the member is present and not JSON null |
| PushingMessageReceiver.PushAccepted | src/org/mokee/mkparts/push/PushingMessageReceiver.java:74-76 | a message is accepted exactly when its content is non-empty, the language is supported and the push setting is 1 or unset (an unset setting counts as on) |
| PushingMessageReceiver.Targeted | src/org/mokee/mkparts/push/PushingMessageReceiver.java:88-91 | the condition as written: "all" for both targets always passes; a device list that neither names the product nor is "all", or a type list that neither names the release nor is "all", always fails |
| PushingMessageReceiver.TargetedFactorised | src/org/mokee/mkparts/push/PushingMessageReceiver.java:88-91 | the four-way condition is the same as: device names this product or is "all", and type names this release or is "all" |
| PushingMessageReceiver.PromptUser | src/org/mokee/mkparts/push/PushingMessageReceiver.java:99-132 | a notification exactly when there is a url or a clipboard text; a url is opened in preference to copying; title and message are carried over |
| PushingMessageReceiver.ReadFields | src/org/mokee/mkparts/push/PushingMessageReceiver.java:80-86 | title, url and clipboard are read with a null default; device and type default to "all" when absent or null |
| PushingMessageReceiver.OnMessage | src/org/mokee/mkparts/push/PushingMessageReceiver.java:73-97 | no notification without content, language support and the push setting, or when the content does not parse; a posted notification is promptUser of the parsed title, url and clipboard members with the message text, so its title is non-empty |
| PushingMessageReceiver.OnMessageExactly | src/org/mokee/mkparts/push/PushingMessageReceiver.java:73-132 | a notification is posted exactly when every filter passes: accepted, parsed, titled, targeted, and with a url or clipboard text |
| PushingMessageReceiver.MissingTargetsMeanAll | src/org/mokee/mkparts/push/PushingMessageReceiver.java:83-84 | a message without device and type members reaches every device |
| PushingMessageReceiver.CopyToClipboardIntent | src/org/mokee/mkparts/push/PushingMessageReceiver.java:134-139 | the broadcast carries the copy action and the text |
| PushingMessageReceiver.OnReceive | src/org/mokee/mkparts/push/PushingMessageReceiver.java:57-71 | a received message is always reported as opened, after its notification when there is one; the copy action copies the text and shows a toast; other actions do nothing |
| PushingMessageReceiver.CopyActionCopiesExactly | src/org/mokee/mkparts/push/PushingMessageReceiver.java:66-69 | tapping a copy notification copies exactly the text it was built with |
| IntervalSeekBarPreference.RoundHalfUp | src/org/mokee/mkparts/widget/IntervalSeekBarPreference.java:142 | the result times k is within half of k of v, halves rounded up |
| IntervalSeekBarPreference.Normalise | src/org/mokee/mkparts/widget/IntervalSeekBarPreference.java:135-143 | above max gives max, below min gives min; in range, a value on the grid is kept, interval 0 throws, and otherwise the result is a multiple of the interval within half an interval of the value, for a positive and for a negative interval |
| IntervalSeekBarPreference.SnapMayExceedMax | src/org/mokee/mkparts/widget/IntervalSeekBarPreference.java:137-143 | snapping happens after clamping, so range 0..100 with interval 40 stores 120 for position 100 |
| IntervalSeekBarPreference.OnProgressChanged | src/org/mokee/mkparts/widget/IntervalSeekBarPreference.java:133-155 | an accepted value becomes current, is shown and persisted; a rejected one puts the bar back on the current value; interval 0 throws; the range settings and bar range stay in sync |
| IntervalSeekBarPreference.Bind | src/org/mokee/mkparts/widget/IntervalSeekBarPreference.java:115-131 | the bar spans max - min, sits on the current value and shows it; nothing else changes |
| IntervalSeekBarPreference.SetMaxValue | src/org/mokee/mkparts/widget/IntervalSeekBarPreference.java:192-197 | the maximum changes; a bound bar stays bound and only its range changes, to max - min; an unbound one stays unbound; interval, current and stored values are kept |
| IntervalSeekBarPreference.SetMinValue | src/org/mokee/mkparts/widget/IntervalSeekBarPreference.java:199-204 | the minimum changes; a bound bar stays bound and only its range changes, to max - min; an unbound one stays unbound; interval, current and stored values are kept |
| IntervalSeekBarPreference.SetValue | src/org/mokee/mkparts/widget/IntervalSeekBarPreference.java:188-190 | only the current value changes |
| IntervalSeekBarPreference.OnGetDefaultValue | src/org/mokee/mkparts/widget/IntervalSeekBarPreference.java:166-170 | the attribute's integer, or 50 without one |
| IntervalSeekBarPreference.OnSetInitialValue | src/org/mokee/mkparts/widget/IntervalSeekBarPreference.java:172-186 | a restore reads the stored value, keeping the current one when none is stored; otherwise the default (0 when not an Integer) becomes current and is persisted |
| IntervalSeekBarPreference.AcceptedValueIsRestored | src/org/mokee/mkparts/widget/IntervalSeekBarPreference.java:154-175 | a value the listener accepted is what a later restore brings back |
| IntervalSeekBarPreference.Apply | src/org/mokee/mkparts/widget/IntervalSeekBarPreference.java:115-204 | every operation keeps the bar range equal to max - min |
| IntervalSeekBarPreference.BarRangeAlwaysInSync | src/org/mokee/mkparts/widget/IntervalSeekBarPreference.java:42-46 | from the initial field values, any sequence of operations leaves a bound bar spanning max - min |
| IntervalSeekBarPreference.InSyncPreserved | src/org/mokee/mkparts/widget/IntervalSeekBarPreference.java:115-204 | a sequence of operations keeps the bar range in sync |
| MKPartsApplication.DeviceTags | src/org/mokee/mkparts/MKPartsApplication.java:62-65 | the tag set holds exactly product, codename and build user, so it is never empty |
| MKPartsApplication.OnCreate | src/org/mokee/mkparts/MKPartsApplication.java:48-69 | outside the main process nothing is posted; in it, the alias is posted exactly when non-empty and not the stored one, and the tags exactly when not the stored set; nothing else is posted, each at most once, alias before tags |
| MKPartsApplication.HandleMessage | src/org/mokee/mkparts/MKPartsApplication.java:71-90 | an alias message registers its string with the alias callback, a tags message its set with the tags callback; other codes are ignored; a payload of the wrong kind fails the cast |
| MKPartsApplication.AliasGotResult | src/org/mokee/mkparts/MKPartsApplication.java:92-118 | code 0 stores the alias; 6002 re-posts it after a minute when online; preferences change only on 0; the stored tags never change |
| MKPartsApplication.TagsGotResult | src/org/mokee/mkparts/MKPartsApplication.java:120-146 | code 0 stores the tags; 6002 re-posts them after a minute when online; preferences change only on 0; the stored alias never changes |
| MKPartsApplication.GotResult | src/org/mokee/mkparts/MKPartsApplication.java:92-146 | success stores the value the SDK reports, in the field of the callback the request names, and posts nothing; any other code stores nothing; the alias callback never touches the stored tags, the tags callback never the stored alias |
| MKPartsApplication.SuccessStoresWhatWasPosted | src/org/mokee/mkparts/MKPartsApplication.java:57-68 | a message posted at start-up dispatches to a request for exactly the value start-up compared against; success stores the SDK-reported value, which is that value when the SDK echoes the request |
| MKPartsApplication.ReplayStores | src/org/mokee/mkparts/MKPartsApplication.java:98-129 | replaying successful registrations whose reports echo the requests stores the device's alias and tags for each one posted and otherwise leaves them as they were |
| MKPartsApplication.RegistrationConverges | src/org/mokee/mkparts/MKPartsApplication.java:57-68 | once every start-up registration has succeeded, the next start-up posts nothing |
| MKPartsApplication.RetryRepeatsRequest | src/org/mokee/mkparts/MKPartsApplication.java:103-111 | a timed-out registration re-posts the SDK-reported value after a minute when online and nothing offline, storing nothing; when the SDK echoes the request, the re-posted message dispatches to the very same request |

## Left out

- HTTP connections, streams and the server's URL resource. An upload's result is an `Outcome` parameter.
- JSON parsing of the server's response and of push content. These are the parameters `extract` and `parse`; `None` stands for a parse failure.
- AsyncTask threading and the synchronized map. Each task phase is one atomic transition; true concurrency between threads is not modelled.
- AlarmManager, JobScheduler, SharedPreferences writes, service starts, toasts and the clipboard are returned effects, not performed.
- The push SDK (`JPushInterface`) is not modelled. Its result codes are inputs to the callbacks.
- Notification building (channel, icon, colour, style) and the notification id are left out. The notification id is derived from the clock.
- Logging and `printBundle` are left out.
- The two-argument `ReportingServiceManager.setAlarm(ctx, interval)`, `Utilities.getVersionCode`, the ANONYMOUS_VERSION_CODE key and `StatsUploadJobService.KEY_FLASH_TIME` are not part of this model, because their definitions are not in the files modelled.
  - The alarm request becomes the effect `RequestAlarm(interval)`.
  - The version code is an input, stored in its own preference field (nothing written here updates the version the scheduler compares).
  - The flash-time key is taken as "device_flash_time".
- The cmparts package's own `Utilities` and `StatsUploadJobService` are not part of this model. The mkparts ones stand in.
- Java `long`/`int` overflow is not modelled, for example `lastSynced + UPDATE_INTERVAL` or `progress + mMinValue`. Values are unbounded integers.
- IntervalSeekBarPreference.RoundHalfUp: `Math.round` on a single-precision float is modelled as exact half-up rounding, so float rounding error for large values is not modelled.
- Locale-dependent and non-ASCII case folding is left out. Lower-casing maps A-Z only, and `Long.valueOf` accepts ASCII digits only.
- IntervalSeekBarPreference.OnProgressChanged: the nested `onProgressChanged` that `setProgress` triggers on a rejected value is not modelled. Neither is Android's clamping of the bar's progress to its range.
- IntervalSeekBarPreference.Bind: the enabled state and the units text are not modelled.
- IntervalSeekBarPreference.SetMaxValue, SetMinValue and Bind: on a bound bar, Android's `setMax` and `setProgress` can call `onProgressChanged` back. That re-entry is not modelled; these members state only their direct field updates.
- IntervalSeekBarPreference.OnProgressChanged and OnSetInitialValue: `persistInt` writes only when `shouldPersist()` holds, that is, the preference has a key and persistence is on. The model records every persisted value as written.
- A response without an entity in the older service (a NullPointerException) is not modelled. Neither is a null bundle in the push receiver.
- MKPartsApplication.RegistrationConverges: this assumes the SDK echoes the requested alias or tags in its success callback. The source stores whatever the SDK reports; convergence is not promised for an SDK that reports other values.
- MKPartsApplication.ReplayStores: the replay assumes the SDK echoes each request (`Echo`), for the same reason; the callbacks themselves (`GotResult`, `SuccessStoresWhatWasPosted`, `RetryRepeatsRequest`) take the reported values as inputs.
- The fingerprint, gesture, notification-light and profile screens are not part of this model. They are UI.
