/**
 * org.mokee.mkparts.stats.Utilities: the telephony/build accessors with their
 * placeholder fallbacks, and the cyclic job-id counter kept in the stats
 * preferences.
 */
module Utilities {
  import opened Wrappers
  import opened JavaText
  import opened Checkpoint

  const QUEUE_MAX_THRESHOLD: int := 1000

  /** What the platform reports about the device; each accessor result is an input. */
  datatype DeviceInfo = DeviceInfo(
    uniqueId: string,                 // Build.getUniqueID
    product: string,                  // Build.PRODUCT
    buildVersion: string,             // Build.VERSION
    operatorName: Option<string>,     // TelephonyManager.getNetworkOperatorName
    operatorNumeric: Option<string>,  // TelephonyManager.getNetworkOperator
    countryIso: Option<string>,       // TelephonyManager.getNetworkCountryIso
    mobileSupported: bool)            // ConnectivityManager.isNetworkSupported(TYPE_MOBILE)

  /** `getCarrier`: the operator name, or "Unknown" when it is null or empty. */
  function GetCarrier(operatorName: Option<string>): (r: string)
    ensures r != ""
    ensures IsEmpty(operatorName) ==> r == "Unknown"
    ensures !IsEmpty(operatorName) ==> r == operatorName.value
  {
    if IsEmpty(operatorName) then "Unknown" else operatorName.value
  }

  /** `getCarrierId`: the numeric operator id, or "0" when it is null or empty. */
  function GetCarrierId(operatorNumeric: Option<string>): (r: string)
    ensures r != ""
    ensures IsEmpty(operatorNumeric) ==> r == "0"
    ensures !IsEmpty(operatorNumeric) ==> r == operatorNumeric.value
  {
    if IsEmpty(operatorNumeric) then "0" else operatorNumeric.value
  }

  /** `getCountryCode`: the network country ISO code, or "Unknown" when it is null or empty. */
  function GetCountryCode(countryIso: Option<string>): (r: string)
    ensures r != ""
    ensures IsEmpty(countryIso) ==> r == "Unknown"
    ensures !IsEmpty(countryIso) ==> r == countryIso.value
  {
    if IsEmpty(countryIso) then "Unknown" else countryIso.value
  }

  /** `getVersion`: the build version when it is a MoKee one (starts with "MK"). */
  function GetVersion(buildVersion: string): (r: string)
    ensures "MK" <= buildVersion ==> r == buildVersion
    ensures !("MK" <= buildVersion) ==> r == "Unknown"
    ensures r == "Unknown" || "MK" <= r
  {
    if "MK" <= buildVersion then buildVersion else "Unknown"
  }

  /** `isWifiOnly`: the device cannot use a mobile data network. */
  function IsWifiOnly(mobileSupported: bool): (r: bool)
    ensures r <==> !mobileSupported
  {
    mobileSupported == false
  }

  /** `updateLastSynced`: records `now` as the last check-in and touches nothing else. */
  function UpdateLastSynced(p: Prefs, now: int): (r: Prefs)
    ensures LastChecked(r) == now
    ensures r.flashTime == p.flashTime && r.version == p.version
    ensures r.versionCode == p.versionCode && r.lastJobId == p.lastJobId
  {
    p.(lastChecked := Some(now))
  }

  /** `getLastJobId`: the stored id, 0 when none was ever stored. */
  function GetLastJobId(p: Prefs): (r: int)
    ensures p.lastJobId == None ==> r == 0
    ensures p.lastJobId.Some? ==> r == p.lastJobId.value
  {
    p.lastJobId.GetOr(0)
  }

  /** A job id together with the preferences after it was drawn. */
  datatype Draw = Draw(id: int, prefs: Prefs)

  /**
   * `getNextJobId`: the successor of the stored id, wrapping to 1 once the
   * stored id reaches QUEUE_MAX_THRESHOLD; the id is persisted before it is
   * returned.
   */
  function GetNextJobId(p: Prefs): (d: Draw)
    ensures d.prefs == p.(lastJobId := Some(d.id))
    ensures GetLastJobId(p) >= QUEUE_MAX_THRESHOLD ==> d.id == 1
    ensures GetLastJobId(p) < QUEUE_MAX_THRESHOLD ==> d.id == GetLastJobId(p) + 1
    ensures 0 <= GetLastJobId(p) <= QUEUE_MAX_THRESHOLD ==> 1 <= d.id <= QUEUE_MAX_THRESHOLD
  {
    var lastId := GetLastJobId(p);
    var next := if lastId >= QUEUE_MAX_THRESHOLD then 1 else lastId + 1;
    Draw(next, p.(lastJobId := Some(next)))
  }

  /** The ids handed out by `n` consecutive calls of `getNextJobId`. */
  function DrawIds(p: Prefs, n: nat): (ids: seq<int>)
    ensures |ids| == n
    decreases n
  {
    if n == 0 then []
    else
      var d := GetNextJobId(p);
      [d.id] + DrawIds(d.prefs, n - 1)
  }

  /** Starting from a stored id `s` in range, call `i` (counting from 0) yields `(s + i) % 1000 + 1`. */
  lemma {:induction false} DrawIdsCycle(p: Prefs, n: nat)
    requires 0 <= GetLastJobId(p) <= QUEUE_MAX_THRESHOLD
    ensures forall i :: 0 <= i < n ==>
              DrawIds(p, n)[i] == (GetLastJobId(p) + i) % QUEUE_MAX_THRESHOLD + 1
    decreases n
  {
    if n > 0 {
      var s := GetLastJobId(p);
      var d := GetNextJobId(p);
      DrawIdsCycle(d.prefs, n - 1);
      var ids := DrawIds(p, n);
      assert GetLastJobId(d.prefs) == d.id == s % QUEUE_MAX_THRESHOLD + 1;
      forall i | 1 <= i < n
        ensures ids[i] == (s + i) % QUEUE_MAX_THRESHOLD + 1
      {
        assert ids[i] == DrawIds(d.prefs, n - 1)[i - 1];
        assert (s % QUEUE_MAX_THRESHOLD + 1 + (i - 1)) % QUEUE_MAX_THRESHOLD
            == (s + i) % QUEUE_MAX_THRESHOLD;
      }
    }
  }

  /** On a fresh device the first 1000 ids are 1..1000 and the 1001st is 1 again. */
  lemma FreshCounterWraps()
    ensures forall i :: 0 <= i < QUEUE_MAX_THRESHOLD ==> DrawIds(Fresh, 1001)[i] == i + 1
    ensures DrawIds(Fresh, 1001)[1000] == 1
  {
    DrawIdsCycle(Fresh, 1001);
  }
}
