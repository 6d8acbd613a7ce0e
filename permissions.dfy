// Permission status as the bridges report it: the three-valued wire status
// (PmAuthorizationStatus), its derivation from Android's per-permission answers
// and from iOS's CLAuthorizationStatus, and the reading of a permission
// request's grant results.
module Permissions {
  import opened Common

  /** PmAuthorizationStatus: the wire status sent to the page. */
  datatype AuthorizationStatus = NotDetermined | Authorized | Denied

  /** The Android SDK bridge declares a second enum, PmLocationAuthorizationStatus,
    * with the same three raw strings; both are this type. */
  type LocationAuthorizationStatus = AuthorizationStatus

  function RawValue(s: AuthorizationStatus): string {
    match s
    case NotDetermined => "notDetermined"
    case Authorized => "authorized"
    case Denied => "denied"
  }

  /** Decoding of a raw status string. */
  function StatusFromRaw(raw: string): (r: Option<AuthorizationStatus>)
    ensures r.Some? ==> RawValue(r.value) == raw
  {
    if raw == "notDetermined" then Some(NotDetermined)
    else if raw == "authorized" then Some(Authorized)
    else if raw == "denied" then Some(Denied)
    else None
  }

  /** The raw value is injective: decoding it gives the variant back, so no
    * two variants share a string. */
  lemma RawValueRoundTrip(s: AuthorizationStatus)
    ensures StatusFromRaw(RawValue(s)) == Some(s)
  {
    match s
    case NotDetermined =>
    case Authorized => assert RawValue(s) != "notDetermined" by { assert RawValue(s)[0] == 'a'; }
    case Denied => assert RawValue(s)[0] == 'd';
  }

  /** Decoding is exact: a string decodes precisely when it is some status's
    * raw value, so every other text is rejected. */
  lemma StatusFromRawExact(raw: string)
    ensures StatusFromRaw(raw).None? <==> forall s: AuthorizationStatus :: RawValue(s) != raw
  {
    if StatusFromRaw(raw).None? {
      forall s: AuthorizationStatus ensures RawValue(s) != raw {
        RawValueRoundTrip(s);
      }
    }
  }

  // ---------------------------------------------------------------------
  // Android
  // ---------------------------------------------------------------------

  /** What Android answers about one runtime permission: whether it is
    * granted, and whether a rationale may be shown (it was denied once
    * without "don't ask again"). */
  datatype PermissionState = PermissionState(granted: bool, showRationale: bool)

  /** A single permission's status (`permissionStatus`,
    * `locationPermissionStatus`): denied without an activity; otherwise
    * authorized when granted, denied when a rationale may be shown, and
    * notDetermined after "don't ask again" as before any prompt. */
  function PermissionStatus(hasActivity: bool, p: PermissionState): (s: AuthorizationStatus) {
    if !hasActivity then Denied
    else if p.granted then Authorized
    else if p.showRationale then Denied
    else NotDetermined
  }

  /** Each status says exactly what the platform answered. */
  lemma PermissionStatusMeaning(hasActivity: bool, p: PermissionState)
    ensures PermissionStatus(hasActivity, p) == Authorized <==> hasActivity && p.granted
    ensures PermissionStatus(hasActivity, p) == Denied
      <==> !hasActivity || (!p.granted && p.showRationale)
    ensures PermissionStatus(hasActivity, p) == NotDetermined
      <==> hasActivity && !p.granted && !p.showRationale
  {
  }

  /** Status of the beacon permissions (`beaconPermissionStatus`): from API
    * level 31 (S) both BLUETOOTH_SCAN and ACCESS_FINE_LOCATION count, below
    * it only the fine location. */
  function BeaconPermissionStatus(apiAtLeastS: bool, hasActivity: bool,
                                  scan: PermissionState, fine: PermissionState): AuthorizationStatus
  {
    var fineStatus := PermissionStatus(hasActivity, fine);
    if apiAtLeastS then
      var scanStatus := PermissionStatus(hasActivity, scan);
      if scanStatus == Authorized && fineStatus == Authorized then Authorized
      else if scanStatus == Denied || fineStatus == Denied then Denied
      else NotDetermined
    else fineStatus
  }

  /** On API S and later: authorized iff both are granted (with an activity),
    * denied iff either is denied, notDetermined otherwise; the result is
    * never more permissive than the fine-location status alone. */
  lemma BeaconPermissionCombination(apiAtLeastS: bool, hasActivity: bool,
                                    scan: PermissionState, fine: PermissionState)
    ensures var s := BeaconPermissionStatus(apiAtLeastS, hasActivity, scan, fine);
      (apiAtLeastS ==>
        (s == Authorized <==> hasActivity && scan.granted && fine.granted)
        && (s == Denied <==> PermissionStatus(hasActivity, scan) == Denied
                             || PermissionStatus(hasActivity, fine) == Denied))
      && (!apiAtLeastS ==> s == PermissionStatus(hasActivity, fine))
      && (s == Authorized ==> PermissionStatus(hasActivity, fine) == Authorized)
  {
  }

  /** PackageManager.PERMISSION_GRANTED. */
  const PermissionGranted: int := 0

  /** Is some entry not a grant? (Kotlin's `any { it != PERMISSION_GRANTED }`.) */
  function AnyNotGranted(grants: seq<int>): bool {
    if |grants| == 0 then false
    else grants[0] != PermissionGranted || AnyNotGranted(grants[1..])
  }

  /** `!(grantResults.isEmpty() || grantResults.any { it != PERMISSION_GRANTED })`. */
  function AllGranted(grants: seq<int>): bool {
    !(|grants| == 0 || AnyNotGranted(grants))
  }

  /** All granted means: at least one result, and every result a grant. */
  lemma {:induction false} AllGrantedMeaning(grants: seq<int>)
    ensures AllGranted(grants) <==> |grants| > 0 && forall i :: 0 <= i < |grants| ==> grants[i] == PermissionGranted
  {
    AnyNotGrantedMeaning(grants);
  }

  lemma {:induction false} AnyNotGrantedMeaning(grants: seq<int>)
    ensures AnyNotGranted(grants) <==> exists i :: 0 <= i < |grants| && grants[i] != PermissionGranted
  {
    if |grants| > 0 {
      AnyNotGrantedMeaning(grants[1..]);
      if exists i :: 0 <= i < |grants[1..]| && grants[1..][i] != PermissionGranted {
        var i :| 0 <= i < |grants[1..]| && grants[1..][i] != PermissionGranted;
        assert grants[i + 1] != PermissionGranted;
      }
      if exists i :: 0 <= i < |grants| && grants[i] != PermissionGranted {
        var i :| 0 <= i < |grants| && grants[i] != PermissionGranted;
        if i > 0 { assert grants[1..][i - 1] != PermissionGranted; }
      }
    }
  }

  /** The web-view geolocation prompt is granted on the first result only. */
  function FirstGranted(grants: seq<int>): (r: bool)
    ensures r ==> |grants| > 0
  {
    |grants| > 0 && grants[0] == PermissionGranted
  }

  /** All granted implies the first is granted, but not conversely. */
  lemma GrantReadings(grants: seq<int>)
    ensures AllGranted(grants) ==> FirstGranted(grants)
    ensures FirstGranted([PermissionGranted, -1]) && !AllGranted([PermissionGranted, -1])
  {
    AllGrantedMeaning(grants);
    var sample := [PermissionGranted, -1];
    AllGrantedMeaning(sample);
    assert sample[1] != PermissionGranted;
  }

  // ---------------------------------------------------------------------
  // iOS
  // ---------------------------------------------------------------------

  /** CLAuthorizationStatus; `Unknown` stands for values added in later
    * releases (the `@unknown default` branch). */
  datatype ClAuthorizationStatus =
    | ClNotDetermined | ClRestricted | ClDenied | ClAuthorizedAlways | ClAuthorizedWhenInUse | ClUnknown

  predicate IsClAuthorized(s: ClAuthorizationStatus) {
    s == ClAuthorizedAlways || s == ClAuthorizedWhenInUse
  }

  /** `locationAuthorizationStatusText`. */
  function StatusText(s: ClAuthorizationStatus): string {
    match s
    case ClNotDetermined => "notDetermined"
    case ClAuthorizedAlways => "authorized"
    case ClAuthorizedWhenInUse => "authorized"
    case _ => "denied"
  }

  /** The wire status an iOS status stands for. */
  function WireStatus(s: ClAuthorizationStatus): AuthorizationStatus {
    if s == ClNotDetermined then NotDetermined
    else if IsClAuthorized(s) then Authorized
    else Denied
  }

  /** The iOS text is always one of the three Android wire strings, and
    * "authorized" exactly for the two authorized statuses. */
  lemma StatusTextAgreesWithWire(s: ClAuthorizationStatus)
    ensures StatusText(s) == RawValue(WireStatus(s))
    ensures StatusText(s) == "authorized" <==> IsClAuthorized(s)
    ensures StatusText(s) == "notDetermined" <==> s == ClNotDetermined
  {
    RawValueRoundTrip(WireStatus(s));
  }
}
