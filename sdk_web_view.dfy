// The Android SDK web view (PmWebView of the platinumaps-sdk library): the
// command bridge between the map page and the device. It decodes
// `command://` requests, keeps the pending request ids of each capability
// (location, beacon scan, heading), runs at most one native session per
// capability and answers the page with callbacks.
//
// Platform answers (permission states, the clock, location fixes, scan
// records, sensor readings) are parameters of the methods; what the bridge
// asks of the platform is appended to `effects`, and what it sends to the
// page to `callbacks`. A delayed or posted runnable is a method of its own
// that the platform calls later.
module SdkWebView {
  import opened Common
  import opened Uri
  import opened Protocol
  import opened Permissions
  import opened Beacon
  import opened MapUrl
  import opened AndroidBridge

  /** The permission answers of the moment: ACCESS_FINE_LOCATION and
    * BLUETOOTH_SCAN. */
  datatype Perms = Perms(fine: PermissionState, scan: PermissionState)

  const FileChooserRequestCode := 102
  const RequestCodePermissionsLocation := 201
  const RequestCodePermissionsBeacon := 202

  /** Beacon samples closer together than this many milliseconds are sent
    * in one batch. */
  const BeaconBufferingWindow := 500

  /** Heading pushes are at least this many milliseconds apart. */
  const MagneticHeadingPushInterval := 100

  // ---------------------------------------------------------------------
  // Callback arguments
  // ---------------------------------------------------------------------

  /** A batch of beacon samples. */
  function BatchArgs(buffer: seq<BeaconDto>): (a: Args)
    ensures a.Keys == {"beacons"} && a["beacons"].Records?
    ensures |a["beacons"].records| == |buffer|
  {
    map["beacons" := Records(BeaconRecords(buffer))]
  }

  /** The beacon failure answer: an error flag, the reported status and no
    * samples. */
  function BeaconErrorArgs(status: AuthorizationStatus): (a: Args)
    ensures a.Keys == {"hasError", "status", "beacons"}
    ensures a["hasError"] == Flag(true) && a["beacons"] == Records([])
    ensures a["status"] == Text(RawValue(Reported(status)))
  {
    map["hasError" := Flag(true), "status" := Text(RawValue(Reported(status))), "beacons" := Records([])]
  }

  /** The answer to pending beacon ids after a denied permission prompt. */
  function BeaconDeniedArgs(): (a: Args)
    ensures a.Keys == {"status", "hasError"}
    ensures a["status"] == Text(RawValue(Denied)) && a["hasError"] == Flag(true)
  {
    StatusArgs(Denied)["hasError" := Flag(true)]
  }

  function HeadingArgs(heading: int): (a: Args)
    ensures a.Keys == {"heading"} && a["heading"] == Integer(heading)
  {
    map["heading" := Integer(heading)]
  }

  /** The commands whose handling ends in the empty echo callback. */
  predicate EchoesEmpty(t: Tag) {
    t == LocationClearWatch || t == BrowseApp || t == BrowseInApp || t == MapNavigate
    || t == AppDetect || t == AppReview || t == WebFileChooser
    || t == BeaconClearWatch || t == HeadingClearWatch
  }

  predicate IsLocationTag(t: Tag) {
    t == LocationStatus || t == LocationAuthorize || t == LocationOnce || t == LocationWatch
    || t == LocationClearWatch
  }

  predicate IsBeaconTag(t: Tag) {
    t == BeaconAuthorize || t == BeaconOnce || t == BeaconWatch || t == BeaconClearWatch
  }

  /** Does the beacon prompt have to ask? From API level 31 when either
    * permission is missing, below it when fine location is. */
  predicate NeedsBeaconPrompt(apiAtLeastS: bool, perms: Perms) {
    if apiAtLeastS then !perms.scan.granted || !perms.fine.granted else !perms.fine.granted
  }

  /** What the beacon prompt asks for. */
  function BeaconPermissions(apiAtLeastS: bool): seq<Permission> {
    if apiAtLeastS then [BluetoothScan, FineLocation] else [FineLocation]
  }

  /** Every sample of a batch reaches the page and reads back unchanged, in
    * arrival order. */
  lemma BatchRoundTrip(buffer: seq<BeaconDto>)
    ensures var rs := BatchArgs(buffer)["beacons"].records;
      |rs| == |buffer| && forall i :: 0 <= i < |rs| ==> RecordToDto(rs[i]) == Some(buffer[i])
  {
    BeaconRecordsRoundTrip(buffer);
  }

  /** An authorized status never reaches the beacon prompt: with every
    * permission granted there is nothing to ask for. */
  lemma AuthorizedNeedsNoPrompt(apiAtLeastS: bool, hasActivity: bool, perms: Perms)
    requires BeaconPermissionStatus(apiAtLeastS, hasActivity, perms.scan, perms.fine) == Authorized
    ensures !NeedsBeaconPrompt(apiAtLeastS, perms)
    ensures hasActivity
  {
    BeaconPermissionCombination(apiAtLeastS, hasActivity, perms.scan, perms.fine);
    PermissionStatusMeaning(hasActivity, perms.fine);
  }

  class PmWebView {
    /** `context as? Activity` is not null. */
    const hasActivity: bool
    /** Build.VERSION.SDK_INT >= Build.VERSION_CODES.S. */
    const apiAtLeastS: bool

    var originalUrl: Option<MapLink>
    var isWebViewLoading: bool
    var webViewLoadingAt: Option<int>
    var hasWebReady: bool
    var playStoreId: Option<string>
    var appLinkUri: Option<string>
    var userId: Option<string>
    var secretKey: Option<string>
    /** `onOpenLinkListener != null`. */
    var hasOpenLinkListener: bool

    var isMeasuringLocation: bool
    var lastLocation: Option<Location>
    var locationAuthorizeRequestId: Option<string>
    var locationOnceRequestIds: seq<string>
    var locationWatchRequestIds: seq<string>

    var beaconListeningUuid: Option<string>
    /** `bluetoothLeScanner != null`. */
    var hasScanner: bool
    /** `startScanningBeacon` runnables posted to the main looper and not yet run. */
    var postedScanStarts: nat
    var isScanningBle: bool
    var isScanningBlePaused: bool
    var beaconAuthorizeRequestId: Option<string>
    var beaconOnceRequestIds: seq<string>
    var beaconWatchRequestIds: seq<string>
    var beaconBuffer: seq<BeaconDto>
    var lastBeaconUpdateTime: int
    var isBeaconBufferFlushReserved: bool

    /** `sensorHeadingListener != null`. */
    var hasHeadingListener: bool
    var lastMagneticHeading: Option<int>
    var lastMagneticHeadingNotifiedAt: int
    var headingRequestIds: seq<string>

    /** `geolocationPermissionsCallback != null`. */
    var hasGeolocationCallback: bool
    var geolocationOrigin: Option<string>
    var activePermissionRequest: Option<seq<Resource>>

    var callbacks: seq<Callback>
    var effects: seq<Effect>

    static function LocationSessions(log: seq<Effect>): int {
      Balance(log, StartLocationUpdates, StopLocationUpdates)
    }

    static function ScanSessions(log: seq<Effect>): int {
      Balance(log, StartScan, StopScan)
    }

    static function HeadingSessions(log: seq<Effect>): int {
      Balance(log, RegisterHeading, UnregisterHeading)
    }

    /** Every flag tells whether its native session is open, so each
      * capability has at most one session; a scan runs, pauses or is
      * posted only on an existing scanner, and a heading listener exists
      * only with an activity. */
    predicate Valid()
      reads this`effects, this`isMeasuringLocation, this`isScanningBle, this`hasHeadingListener,
        this`isScanningBlePaused, this`postedScanStarts, this`hasScanner
    {
      LocationSessions(effects) == (if isMeasuringLocation then 1 else 0)
      && ScanSessions(effects) == (if isScanningBle then 1 else 0)
      && HeadingSessions(effects) == (if hasHeadingListener then 1 else 0)
      && (isScanningBle || isScanningBlePaused || postedScanStarts > 0 ==> hasScanner)
      && (hasHeadingListener ==> hasActivity)
    }

    constructor (hasActivity: bool, apiAtLeastS: bool, now: int)
      ensures Valid()
      ensures this.hasActivity == hasActivity && this.apiAtLeastS == apiAtLeastS
      ensures originalUrl.None? && !isWebViewLoading && webViewLoadingAt.None? && !hasWebReady
      ensures playStoreId.None? && appLinkUri.None? && userId.None? && secretKey.None?
      ensures !hasOpenLinkListener
      ensures !isMeasuringLocation && lastLocation.None? && locationAuthorizeRequestId.None?
      ensures locationOnceRequestIds == [] && locationWatchRequestIds == []
      ensures beaconListeningUuid.None? && !hasScanner && postedScanStarts == 0
      ensures !isScanningBle && !isScanningBlePaused && beaconAuthorizeRequestId.None?
      ensures beaconOnceRequestIds == [] && beaconWatchRequestIds == [] && beaconBuffer == []
      ensures lastBeaconUpdateTime == now && !isBeaconBufferFlushReserved
      ensures !hasHeadingListener && lastMagneticHeading.None? && lastMagneticHeadingNotifiedAt == now
      ensures headingRequestIds == []
      ensures !hasGeolocationCallback && geolocationOrigin.None? && activePermissionRequest.None?
      ensures callbacks == [] && effects == []
    {
      this.hasActivity := hasActivity;
      this.apiAtLeastS := apiAtLeastS;
      originalUrl := None;
      isWebViewLoading := false;
      webViewLoadingAt := None;
      hasWebReady := false;
      playStoreId := None;
      appLinkUri := None;
      userId := None;
      secretKey := None;
      hasOpenLinkListener := false;
      isMeasuringLocation := false;
      lastLocation := None;
      locationAuthorizeRequestId := None;
      locationOnceRequestIds := [];
      locationWatchRequestIds := [];
      beaconListeningUuid := None;
      hasScanner := false;
      postedScanStarts := 0;
      isScanningBle := false;
      isScanningBlePaused := false;
      beaconAuthorizeRequestId := None;
      beaconOnceRequestIds := [];
      beaconWatchRequestIds := [];
      beaconBuffer := [];
      lastBeaconUpdateTime := now;
      isBeaconBufferFlushReserved := false;
      hasHeadingListener := false;
      lastMagneticHeading := None;
      lastMagneticHeadingNotifiedAt := now;
      headingRequestIds := [];
      hasGeolocationCallback := false;
      geolocationOrigin := None;
      activePermissionRequest := None;
      callbacks := [];
      effects := [];
    }

    /** An effect that starts or stops no session keeps the invariant. */
    method EmitOther(e: Effect)
      requires Valid()
      requires e != StartLocationUpdates && e != StopLocationUpdates && e != StartScan && e != StopScan
      requires e != RegisterHeading && e != UnregisterHeading
      modifies this`effects
      ensures Valid() && effects == old(effects) + [e]
    {
      BalanceAppend(effects, e, StartLocationUpdates, StopLocationUpdates);
      BalanceAppend(effects, e, StartScan, StopScan);
      BalanceAppend(effects, e, RegisterHeading, UnregisterHeading);
      effects := effects + [e];
    }

    /** Opens or closes the location session: the event is logged and the flag
      * follows it. */
    method SwitchLocation(on: bool)
      requires Valid() && isMeasuringLocation != on
      modifies this`effects, this`isMeasuringLocation
      ensures Valid() && isMeasuringLocation == on
      ensures effects == old(effects) + [if on then StartLocationUpdates else StopLocationUpdates]
    {
      var e := if on then StartLocationUpdates else StopLocationUpdates;
      BalanceAppend(effects, e, StartLocationUpdates, StopLocationUpdates);
      BalanceAppend(effects, e, StartScan, StopScan);
      BalanceAppend(effects, e, RegisterHeading, UnregisterHeading);
      effects := effects + [e];
      isMeasuringLocation := on;
    }

    /** Opens or closes the beacon scan: the event is logged and the flag
      * follows it. */
    method SwitchScan(on: bool)
      requires Valid() && isScanningBle != on && (on ==> hasScanner)
      modifies this`effects, this`isScanningBle
      ensures Valid() && isScanningBle == on
      ensures effects == old(effects) + [if on then StartScan else StopScan]
    {
      var e := if on then StartScan else StopScan;
      BalanceAppend(effects, e, StartLocationUpdates, StopLocationUpdates);
      BalanceAppend(effects, e, StartScan, StopScan);
      BalanceAppend(effects, e, RegisterHeading, UnregisterHeading);
      effects := effects + [e];
      isScanningBle := on;
    }

    /** Opens or closes the heading listener: the event is logged and the flag
      * follows it. */
    method SwitchHeading(on: bool)
      requires Valid() && hasHeadingListener != on && (on ==> hasActivity)
      modifies this`effects, this`hasHeadingListener
      ensures Valid() && hasHeadingListener == on
      ensures effects == old(effects) + [if on then RegisterHeading else UnregisterHeading]
    {
      var e := if on then RegisterHeading else UnregisterHeading;
      BalanceAppend(effects, e, StartLocationUpdates, StopLocationUpdates);
      BalanceAppend(effects, e, StartScan, StopScan);
      BalanceAppend(effects, e, RegisterHeading, UnregisterHeading);
      effects := effects + [e];
      hasHeadingListener := on;
    }

    /** `onOpenLinkListener = ...`. */
    method SetOnOpenLinkListener(present: bool)
      modifies this`hasOpenLinkListener
      ensures hasOpenLinkListener == present
    {
      hasOpenLinkListener := present;
    }

    // -------------------------------------------------------------------
    // Permission status
    // -------------------------------------------------------------------

    /** `locationPermissionStatus`. */
    function LocationPermissionStatus(perms: Perms): AuthorizationStatus {
      PermissionStatus(hasActivity, perms.fine)
    }

    /** `beaconPermissionStatus`. */
    function BeaconPermissionStatusNow(perms: Perms): AuthorizationStatus {
      BeaconPermissionStatus(apiAtLeastS, hasActivity, perms.scan, perms.fine)
    }

    /** `requestPermissions`: only with an activity. */
    method RequestPermissionsIfPossible(permissions: seq<Permission>, requestCode: int)
      requires Valid()
      modifies this`effects
      ensures Valid()
      ensures effects == old(effects) + (if hasActivity then [RequestPermissions(permissions, requestCode)] else [])
    {
      if hasActivity {
        EmitOther(RequestPermissions(permissions, requestCode));
      }
    }

    /** The OK button of the rationale dialog: the prompt it explained. */
    method OnRationaleAccepted(permissions: seq<Permission>, requestCode: int)
      requires Valid()
      modifies this`effects
      ensures Valid()
      ensures effects == old(effects) + (if hasActivity then [RequestPermissions(permissions, requestCode)] else [])
    {
      RequestPermissionsIfPossible(permissions, requestCode);
    }

    // -------------------------------------------------------------------
    // Location
    // -------------------------------------------------------------------

    /** `stopLocationRequest`: idempotent; closes the session if one is open. */
    method StopLocationRequest()
      requires Valid()
      modifies this`isMeasuringLocation, this`effects
      ensures Valid()
      ensures !isMeasuringLocation
      ensures effects == old(effects) + (if old(isMeasuringLocation) then [StopLocationUpdates] else [])
    {
      if !isMeasuringLocation {
        return;
      }
      SwitchLocation(false);
    }

    /** `stopLocationRequestIfNoRequest`: the session ends once both id lists
      * are empty. */
    method StopLocationRequestIfNoRequest()
      requires Valid()
      modifies this`isMeasuringLocation, this`effects
      ensures Valid()
      ensures isMeasuringLocation
        == (old(isMeasuringLocation) && (locationWatchRequestIds != [] || locationOnceRequestIds != []))
      ensures effects == old(effects)
        + (if old(isMeasuringLocation) && locationWatchRequestIds == [] && locationOnceRequestIds == []
           then [StopLocationUpdates] else [])
    {
      if locationWatchRequestIds == [] && locationOnceRequestIds == [] {
        StopLocationRequest();
      }
    }

    /** `updateLocation`: the same answer to every once id, then to every
      * watch id; the once ids are then dropped and the session stops when
      * no watcher is left. */
    method UpdateLocation(location: Option<Location>, hasError: bool, perms: Perms)
      requires Valid()
      modifies this`callbacks, this`locationOnceRequestIds, this`isMeasuringLocation, this`effects
      ensures Valid()
      ensures callbacks == old(callbacks) + Broadcast(LocationOnce, old(locationOnceRequestIds),
        LocationWatch, locationWatchRequestIds, LocationArgs(LocationPermissionStatus(perms), location, hasError))
      ensures locationOnceRequestIds == []
      ensures isMeasuringLocation == (old(isMeasuringLocation) && locationWatchRequestIds != [])
      ensures effects == old(effects)
        + (if old(isMeasuringLocation) && locationWatchRequestIds == [] then [StopLocationUpdates] else [])
    {
      var args := LocationArgs(LocationPermissionStatus(perms), location, hasError);
      var sent := BroadcastCallbacks(LocationOnce, locationOnceRequestIds, LocationWatch, locationWatchRequestIds, args);
      callbacks := callbacks + sent;
      locationOnceRequestIds := [];
      StopLocationRequestIfNoRequest();
    }

    /** The fused-location callback: the fix is remembered and delivered. */
    method OnLocationResult(location: Location, perms: Perms)
      requires Valid()
      modifies this`lastLocation, this`callbacks, this`locationOnceRequestIds, this`isMeasuringLocation,
        this`effects
      ensures Valid()
      ensures lastLocation == Some(location)
      ensures callbacks == old(callbacks) + Broadcast(LocationOnce, old(locationOnceRequestIds),
        LocationWatch, locationWatchRequestIds, LocationArgs(LocationPermissionStatus(perms), Some(location), false))
      ensures locationOnceRequestIds == []
      ensures isMeasuringLocation == (old(isMeasuringLocation) && locationWatchRequestIds != [])
      ensures effects == old(effects)
        + (if old(isMeasuringLocation) && locationWatchRequestIds == [] then [StopLocationUpdates] else [])
    {
      lastLocation := Some(location);
      UpdateLocation(Some(location), false, perms);
    }

    /** `updateLocationPermission`: on denial every pending once and watch id
      * hears `denied` and both lists are emptied (the session is left as
      * it is); the pending authorize id is answered and reset either way. */
    method UpdateLocationPermission(isGranted: bool)
      modifies this`callbacks, this`locationOnceRequestIds, this`locationWatchRequestIds,
        this`locationAuthorizeRequestId
      ensures var args := StatusArgs(if isGranted then Authorized else Denied);
        callbacks == old(callbacks)
          + (if isGranted then []
             else Broadcast(LocationOnce, old(locationOnceRequestIds), LocationWatch, old(locationWatchRequestIds), args))
          + Answer(LocationAuthorize, old(locationAuthorizeRequestId), args)
      ensures isGranted ==> (locationOnceRequestIds == old(locationOnceRequestIds)
        && locationWatchRequestIds == old(locationWatchRequestIds))
      ensures !isGranted ==> (locationOnceRequestIds == [] && locationWatchRequestIds == [])
      ensures locationAuthorizeRequestId.None?
    {
      var args := StatusArgs(if isGranted then Authorized else Denied);
      if !isGranted {
        var sent := BroadcastCallbacks(LocationOnce, locationOnceRequestIds, LocationWatch, locationWatchRequestIds, args);
        callbacks := callbacks + sent;
        locationOnceRequestIds := [];
        locationWatchRequestIds := [];
      }
      if locationAuthorizeRequestId.Some? {
        callbacks := callbacks + [Callback(LocationAuthorize, locationAuthorizeRequestId.value, args)];
      }
      locationAuthorizeRequestId := None;
    }

    /** `requestLocationPermission`: reports a grant at once when authorized,
      * explains first when denied, and prompts when undetermined. */
    method RequestLocationPermission(perms: Perms)
      requires Valid()
      modifies this`callbacks, this`locationOnceRequestIds, this`locationWatchRequestIds,
        this`locationAuthorizeRequestId, this`effects
      ensures Valid()
      ensures LocationPermissionStatus(perms) == Authorized ==> (
        callbacks == old(callbacks) + Answer(LocationAuthorize, old(locationAuthorizeRequestId), StatusArgs(Authorized))
        && locationAuthorizeRequestId.None? && effects == old(effects))
      ensures LocationPermissionStatus(perms) != Authorized ==> (
        callbacks == old(callbacks) && locationAuthorizeRequestId == old(locationAuthorizeRequestId)
        && effects == old(effects) + [if LocationPermissionStatus(perms) == Denied
             then ShowRationale([FineLocation], RequestCodePermissionsLocation)
             else RequestPermissions([FineLocation], RequestCodePermissionsLocation)])
      ensures locationOnceRequestIds == old(locationOnceRequestIds)
      ensures locationWatchRequestIds == old(locationWatchRequestIds)
    {
      var status := LocationPermissionStatus(perms);
      if status == Authorized {
        UpdateLocationPermission(true);
      } else if status == Denied {
        EmitOther(ShowRationale([FineLocation], RequestCodePermissionsLocation));
      } else {
        RequestPermissionsIfPossible([FineLocation], RequestCodePermissionsLocation);
      }
    }

    /** `startLocationRequest(isOnce)`: nothing unless authorized; while a
      * session runs no second one starts, and a once request replays the
      * last fix; otherwise the session opens. */
    method StartLocationRequest(isOnce: bool, perms: Perms)
      requires Valid()
      modifies this`isMeasuringLocation, this`callbacks, this`locationOnceRequestIds, this`effects
      ensures Valid()
      ensures LocationPermissionStatus(perms) != Authorized ==> (
        isMeasuringLocation == old(isMeasuringLocation) && callbacks == old(callbacks)
        && locationOnceRequestIds == old(locationOnceRequestIds) && effects == old(effects))
      ensures LocationPermissionStatus(perms) == Authorized && !old(isMeasuringLocation) ==> (
        isMeasuringLocation && effects == old(effects) + [StartLocationUpdates]
        && callbacks == old(callbacks) && locationOnceRequestIds == old(locationOnceRequestIds))
      ensures (LocationPermissionStatus(perms) == Authorized && old(isMeasuringLocation)
        && isOnce && lastLocation.Some?) ==> (
        callbacks == old(callbacks) + Broadcast(LocationOnce, old(locationOnceRequestIds),
          LocationWatch, locationWatchRequestIds, LocationArgs(Authorized, lastLocation, false))
        && locationOnceRequestIds == [] && isMeasuringLocation == (locationWatchRequestIds != [])
        && effects == old(effects) + (if locationWatchRequestIds == [] then [StopLocationUpdates] else []))
      ensures (LocationPermissionStatus(perms) == Authorized && old(isMeasuringLocation)
        && !(isOnce && lastLocation.Some?)) ==> (
        isMeasuringLocation && callbacks == old(callbacks)
        && locationOnceRequestIds == old(locationOnceRequestIds) && effects == old(effects))
    {
      if !hasActivity || LocationPermissionStatus(perms) != Authorized {
        return;
      }
      if isMeasuringLocation {
        if isOnce && lastLocation.Some? {
          UpdateLocation(lastLocation, false, perms);
        }
        return;
      }
      SwitchLocation(true);
    }

    /** `startLocationRequest(command, requestId)`: without an activity the
      * request hears its status at once; otherwise it asks for permission
      * or starts the session. */
    method StartLocationRequestFor(tag: Tag, id: string, perms: Perms)
      requires Valid()
      modifies this`isMeasuringLocation, this`callbacks, this`locationOnceRequestIds,
        this`locationWatchRequestIds, this`locationAuthorizeRequestId, this`effects
      ensures Valid()
      ensures !hasActivity ==> (
        callbacks == old(callbacks) + [Callback(tag, id, StatusArgs(Denied))]
        && effects == old(effects) && isMeasuringLocation == old(isMeasuringLocation)
        && locationOnceRequestIds == old(locationOnceRequestIds))
      ensures hasActivity && LocationPermissionStatus(perms) != Authorized ==> (
        callbacks == old(callbacks) && isMeasuringLocation == old(isMeasuringLocation)
        && locationOnceRequestIds == old(locationOnceRequestIds)
        && effects == old(effects) + [if LocationPermissionStatus(perms) == Denied
             then ShowRationale([FineLocation], RequestCodePermissionsLocation)
             else RequestPermissions([FineLocation], RequestCodePermissionsLocation)])
      ensures LocationPermissionStatus(perms) == Authorized && !old(isMeasuringLocation) ==> (
        isMeasuringLocation && effects == old(effects) + [StartLocationUpdates]
        && callbacks == old(callbacks) && locationOnceRequestIds == old(locationOnceRequestIds))
      ensures (LocationPermissionStatus(perms) == Authorized && old(isMeasuringLocation)
        && tag == LocationOnce && lastLocation.Some?) ==> (
        callbacks == old(callbacks) + Broadcast(LocationOnce, old(locationOnceRequestIds),
          LocationWatch, locationWatchRequestIds, LocationArgs(Authorized, lastLocation, false))
        && locationOnceRequestIds == [] && isMeasuringLocation == (locationWatchRequestIds != []))
      ensures (LocationPermissionStatus(perms) == Authorized && old(isMeasuringLocation)
        && !(tag == LocationOnce && lastLocation.Some?)) ==> (
        isMeasuringLocation && callbacks == old(callbacks)
        && locationOnceRequestIds == old(locationOnceRequestIds) && effects == old(effects))
      ensures locationWatchRequestIds == old(locationWatchRequestIds)
      ensures locationAuthorizeRequestId == old(locationAuthorizeRequestId)
    {
      var status := LocationPermissionStatus(perms);
      if hasActivity {
        if status != Authorized {
          RequestLocationPermission(perms);
        } else {
          StartLocationRequest(tag == LocationOnce, perms);
        }
        return;
      }
      callbacks := callbacks + [Callback(tag, id, StatusArgs(status))];
    }

    // -------------------------------------------------------------------
    // Beacon
    // -------------------------------------------------------------------

    /** `initBeaconReceiverIfNeeded(_, true)`: with an activity, creates the
      * scanner once and posts a scan start. */
    method InitBeaconReceiver()
      requires Valid()
      modifies this`hasScanner, this`postedScanStarts, this`effects
      ensures Valid()
      ensures hasActivity ==> (hasScanner && postedScanStarts == old(postedScanStarts) + 1
        && effects == old(effects) + (if old(hasScanner) then [] else [CreateScanner]))
      ensures !hasActivity ==> (hasScanner == old(hasScanner) && postedScanStarts == old(postedScanStarts)
        && effects == old(effects))
    {
      if hasActivity {
        var created := hasScanner;
        hasScanner, postedScanStarts := true, postedScanStarts + 1;
        if !created {
          EmitOther(CreateScanner);
        }
      }
    }

    /** `startScanningBeacon`: idempotent; starts the scan on the scanner. */
    method StartScanningBeacon()
      requires Valid() && hasScanner
      modifies this`isScanningBle, this`effects
      ensures Valid()
      ensures isScanningBle
      ensures effects == old(effects) + (if old(isScanningBle) then [] else [StartScan])
    {
      if isScanningBle {
        return;
      }
      SwitchScan(true);
    }

    /** A posted `startScanningBeacon` runs on the main looper. */
    method RunPostedScanStart()
      requires Valid() && postedScanStarts > 0
      modifies this`postedScanStarts, this`isScanningBle, this`effects
      ensures Valid()
      ensures postedScanStarts == old(postedScanStarts) - 1
      ensures isScanningBle
      ensures effects == old(effects) + (if old(isScanningBle) then [] else [StartScan])
    {
      postedScanStarts := postedScanStarts - 1;
      StartScanningBeacon();
    }

    /** `stopBeaconRequest`: idempotent; stops the scan if one runs. */
    method StopBeaconRequest()
      requires Valid()
      modifies this`isScanningBle, this`effects
      ensures Valid()
      ensures !isScanningBle
      ensures effects == old(effects) + (if old(isScanningBle) then [StopScan] else [])
    {
      if !isScanningBle {
        return;
      }
      SwitchScan(false);
    }

    /** `stopBeaconRequestIfNoRequest`. */
    method StopBeaconRequestIfNoRequest()
      requires Valid()
      modifies this`isScanningBle, this`effects
      ensures Valid()
      ensures isScanningBle == (old(isScanningBle) && (beaconWatchRequestIds != [] || beaconOnceRequestIds != []))
      ensures effects == old(effects)
        + (if old(isScanningBle) && beaconWatchRequestIds == [] && beaconOnceRequestIds == []
           then [StopScan] else [])
    {
      if beaconWatchRequestIds == [] && beaconOnceRequestIds == [] {
        StopBeaconRequest();
      }
    }

    /** `pauseScanningBeaconIfNeeded`: a running scan stops and is marked
      * paused. */
    method PauseScanningBeacon()
      requires Valid()
      modifies this`isScanningBle, this`isScanningBlePaused, this`effects
      ensures Valid()
      ensures !isScanningBle
      ensures isScanningBlePaused == (old(isScanningBlePaused) || old(isScanningBle))
      ensures effects == old(effects) + (if old(isScanningBle) then [StopScan] else [])
    {
      if isScanningBle {
        isScanningBlePaused := true;
        SwitchScan(false);
      }
    }

    /** `resumeScanningBeaconIfNeeded`: a paused scan starts again. */
    method ResumeScanningBeacon()
      requires Valid()
      modifies this`isScanningBle, this`isScanningBlePaused, this`effects
      ensures Valid()
      ensures !isScanningBlePaused
      ensures isScanningBle == (old(isScanningBle) || old(isScanningBlePaused))
      ensures effects == old(effects)
        + (if old(isScanningBlePaused) && !old(isScanningBle) then [StartScan] else [])
    {
      if isScanningBlePaused {
        StartScanningBeacon();
        isScanningBlePaused := false;
      }
    }

    /** `requestBeaconPermission`: with an activity, prompts for whatever is
      * missing, or starts the receiver when nothing is. */
    method RequestBeaconPermission(perms: Perms)
      requires Valid()
      modifies this`hasScanner, this`postedScanStarts, this`effects
      ensures Valid()
      ensures !hasActivity ==> (effects == old(effects) && postedScanStarts == old(postedScanStarts)
        && hasScanner == old(hasScanner))
      ensures hasActivity && NeedsBeaconPrompt(apiAtLeastS, perms) ==> (
        effects == old(effects) + [RequestPermissions(BeaconPermissions(apiAtLeastS), RequestCodePermissionsBeacon)]
        && postedScanStarts == old(postedScanStarts) && hasScanner == old(hasScanner))
      ensures hasActivity && !NeedsBeaconPrompt(apiAtLeastS, perms) ==> (
        hasScanner && postedScanStarts == old(postedScanStarts) + 1
        && effects == old(effects) + (if old(hasScanner) then [] else [CreateScanner]))
    {
      if hasActivity {
        if NeedsBeaconPrompt(apiAtLeastS, perms) {
          RequestPermissionsIfPossible(BeaconPermissions(apiAtLeastS), RequestCodePermissionsBeacon);
        } else {
          InitBeaconReceiver();
        }
      }
    }

    /** `startBeaconRequest(isOnce)` (the flag is not used): only when
      * authorized, starts the receiver. */
    method StartBeaconRequest(perms: Perms)
      requires Valid()
      modifies this`hasScanner, this`postedScanStarts, this`effects
      ensures Valid()
      ensures BeaconPermissionStatusNow(perms) != Authorized ==> (
        effects == old(effects) && postedScanStarts == old(postedScanStarts) && hasScanner == old(hasScanner))
      ensures BeaconPermissionStatusNow(perms) == Authorized ==> (
        hasScanner && postedScanStarts == old(postedScanStarts) + 1
        && effects == old(effects) + (if old(hasScanner) then [] else [CreateScanner]))
    {
      if BeaconPermissionStatusNow(perms) != Authorized {
        return;
      }
      AuthorizedNeedsNoPrompt(apiAtLeastS, hasActivity, perms);
      InitBeaconReceiver();
    }

    /** `startBeaconRequest(command, requestId)`: without an activity the
      * request hears its status at once; otherwise it asks for permission
      * or starts the receiver. */
    method StartBeaconRequestFor(tag: Tag, id: string, perms: Perms)
      requires Valid()
      modifies this`callbacks, this`hasScanner, this`postedScanStarts, this`effects
      ensures Valid()
      ensures !hasActivity ==> (
        callbacks == old(callbacks) + [Callback(tag, id, StatusArgs(Denied))]
        && effects == old(effects) && postedScanStarts == old(postedScanStarts))
      ensures hasActivity && BeaconPermissionStatusNow(perms) != Authorized ==> (
        callbacks == old(callbacks)
        && (NeedsBeaconPrompt(apiAtLeastS, perms) ==>
              effects == old(effects) + [RequestPermissions(BeaconPermissions(apiAtLeastS), RequestCodePermissionsBeacon)])
        && (!NeedsBeaconPrompt(apiAtLeastS, perms) ==> postedScanStarts == old(postedScanStarts) + 1))
      ensures BeaconPermissionStatusNow(perms) == Authorized ==> (
        callbacks == old(callbacks) && hasScanner && postedScanStarts == old(postedScanStarts) + 1
        && effects == old(effects) + (if old(hasScanner) then [] else [CreateScanner]))
    {
      var status := BeaconPermissionStatusNow(perms);
      if hasActivity {
        if status != Authorized {
          RequestBeaconPermission(perms);
        } else {
          StartBeaconRequest(perms);
        }
        return;
      }
      PermissionStatusMeaning(hasActivity, perms.fine);
      BeaconPermissionCombination(apiAtLeastS, hasActivity, perms.scan, perms.fine);
      callbacks := callbacks + [Callback(tag, id, StatusArgs(status))];
    }

    /** `beaconCommandCallback`: the same answer to every once id, then to
      * every watch id; once ids are dropped and the scan stops when no
      * watcher is left. */
    method BeaconCommandCallback(args: Args)
      requires Valid()
      modifies this`callbacks, this`beaconOnceRequestIds, this`isScanningBle, this`effects
      ensures Valid()
      ensures callbacks == old(callbacks)
        + Broadcast(BeaconOnce, old(beaconOnceRequestIds), BeaconWatch, beaconWatchRequestIds, args)
      ensures beaconOnceRequestIds == []
      ensures isScanningBle == (old(isScanningBle) && beaconWatchRequestIds != [])
      ensures effects == old(effects)
        + (if old(isScanningBle) && beaconWatchRequestIds == [] then [StopScan] else [])
    {
      var sent := BroadcastCallbacks(BeaconOnce, beaconOnceRequestIds, BeaconWatch, beaconWatchRequestIds, args);
      callbacks := callbacks + sent;
      beaconOnceRequestIds := [];
      StopBeaconRequestIfNoRequest();
    }

    /** `flushBeaconBuffer`: a non-empty buffer goes out whole, in arrival
      * order, and is emptied; the flush time is reset either way. */
    method FlushBeaconBuffer(now: int)
      requires Valid()
      modifies this`beaconBuffer, this`lastBeaconUpdateTime, this`callbacks, this`beaconOnceRequestIds,
        this`isScanningBle, this`effects
      ensures Valid()
      ensures beaconBuffer == [] && lastBeaconUpdateTime == now
      ensures old(beaconBuffer) != [] ==> (
        callbacks == old(callbacks)
          + Broadcast(BeaconOnce, old(beaconOnceRequestIds), BeaconWatch, beaconWatchRequestIds,
                      BatchArgs(old(beaconBuffer)))
        && beaconOnceRequestIds == []
        && isScanningBle == (old(isScanningBle) && beaconWatchRequestIds != [])
        && effects == old(effects) + (if old(isScanningBle) && beaconWatchRequestIds == [] then [StopScan] else []))
      ensures old(beaconBuffer) == [] ==> (
        callbacks == old(callbacks) && beaconOnceRequestIds == old(beaconOnceRequestIds)
        && isScanningBle == old(isScanningBle) && effects == old(effects))
    {
      if |beaconBuffer| > 0 {
        var records := CollectBeaconRecords(beaconBuffer);
        var args: Args := map["beacons" := Records(records)];
        beaconBuffer := [];
        BeaconCommandCallback(args);
      }
      lastBeaconUpdateTime := now;
    }

    /** `reserveFlushBeaconBuffer`: at most one delayed flush at a time. */
    method ReserveFlushBeaconBuffer()
      modifies this`isBeaconBufferFlushReserved
      ensures isBeaconBufferFlushReserved
    {
      if isBeaconBufferFlushReserved {
        return;
      }
      isBeaconBufferFlushReserved := true;
    }

    /** The reserved delayed flush runs: it flushes and frees the
      * reservation. */
    method ReservedFlushFires(now: int)
      requires Valid() && isBeaconBufferFlushReserved
      modifies this`beaconBuffer, this`lastBeaconUpdateTime, this`callbacks, this`beaconOnceRequestIds,
        this`isScanningBle, this`effects, this`isBeaconBufferFlushReserved
      ensures Valid()
      ensures !isBeaconBufferFlushReserved
      ensures beaconBuffer == [] && lastBeaconUpdateTime == now
      ensures old(beaconBuffer) != [] ==> (
        callbacks == old(callbacks)
          + Broadcast(BeaconOnce, old(beaconOnceRequestIds), BeaconWatch, beaconWatchRequestIds,
                      BatchArgs(old(beaconBuffer)))
        && beaconOnceRequestIds == [])
      ensures old(beaconBuffer) == [] ==> (callbacks == old(callbacks) && effects == old(effects))
    {
      FlushBeaconBuffer(now);
      isBeaconBufferFlushReserved := false;
    }

    /** `updateBeacon`: an error empties the buffer and answers every
      * waiter with the error; a sample joins the buffer, which flushes now
      * when the last flush is more than the window ago, and otherwise waits
      * for the one reserved flush. */
    method UpdateBeacon(beacon: Option<BeaconDto>, hasError: bool, perms: Perms, now: int)
      requires Valid()
      modifies this`beaconBuffer, this`lastBeaconUpdateTime, this`callbacks, this`beaconOnceRequestIds,
        this`isScanningBle, this`effects, this`isBeaconBufferFlushReserved
      ensures Valid()
      ensures hasError ==> (
        callbacks == old(callbacks) + Broadcast(BeaconOnce, old(beaconOnceRequestIds), BeaconWatch,
          beaconWatchRequestIds, BeaconErrorArgs(BeaconPermissionStatusNow(perms)))
        && beaconOnceRequestIds == [] && beaconBuffer == [] && lastBeaconUpdateTime == now
        && isBeaconBufferFlushReserved == old(isBeaconBufferFlushReserved))
      ensures !hasError && beacon.None? ==> (
        callbacks == old(callbacks) && beaconBuffer == old(beaconBuffer) && effects == old(effects)
        && lastBeaconUpdateTime == old(lastBeaconUpdateTime)
        && isBeaconBufferFlushReserved == old(isBeaconBufferFlushReserved))
      ensures !hasError && beacon.Some? && now - old(lastBeaconUpdateTime) > BeaconBufferingWindow ==> (
        callbacks == old(callbacks) + Broadcast(BeaconOnce, old(beaconOnceRequestIds), BeaconWatch,
          beaconWatchRequestIds, BatchArgs(old(beaconBuffer) + [beacon.value]))
        && beaconOnceRequestIds == [] && beaconBuffer == [] && lastBeaconUpdateTime == now
        && isBeaconBufferFlushReserved == old(isBeaconBufferFlushReserved))
      ensures !hasError && beacon.Some? && now - old(lastBeaconUpdateTime) <= BeaconBufferingWindow ==> (
        callbacks == old(callbacks) && beaconBuffer == old(beaconBuffer) + [beacon.value]
        && effects == old(effects) && lastBeaconUpdateTime == old(lastBeaconUpdateTime)
        && isBeaconBufferFlushReserved)
    {
      if hasError {
        BeaconCommandCallback(BeaconErrorArgs(BeaconPermissionStatusNow(perms)));
        beaconBuffer := [];
        lastBeaconUpdateTime := now;
        return;
      }
      if beacon.Some? {
        beaconBuffer := beaconBuffer + [beacon.value];
        if now - lastBeaconUpdateTime > BeaconBufferingWindow {
          FlushBeaconBuffer(now);
        } else if !isBeaconBufferFlushReserved {
          ReserveFlushBeaconBuffer();
        }
      }
    }

    /** The scan callback: a record that decodes to a sample of the
      * listened UUID is delivered. */
    method OnScanResult(record: Option<seq<int8>>, rssi: int, perms: Perms, now: int)
      requires Valid()
      modifies this`beaconBuffer, this`lastBeaconUpdateTime, this`callbacks, this`beaconOnceRequestIds,
        this`isScanningBle, this`effects, this`isBeaconBufferFlushReserved
      ensures Valid()
      ensures ParseBeacon(record, rssi, beaconListeningUuid, now).None? ==> (
        callbacks == old(callbacks) && beaconBuffer == old(beaconBuffer) && effects == old(effects))
      ensures var b := ParseBeacon(record, rssi, beaconListeningUuid, now);
        b.Some? && now - old(lastBeaconUpdateTime) <= BeaconBufferingWindow ==> (
        beaconBuffer == old(beaconBuffer) + [b.value] && callbacks == old(callbacks)
        && isBeaconBufferFlushReserved)
      ensures var b := ParseBeacon(record, rssi, beaconListeningUuid, now);
        b.Some? && now - old(lastBeaconUpdateTime) > BeaconBufferingWindow ==> (
        beaconBuffer == [] && callbacks == old(callbacks) + Broadcast(BeaconOnce, old(beaconOnceRequestIds),
          BeaconWatch, beaconWatchRequestIds, BatchArgs(old(beaconBuffer) + [b.value])))
    {
      var beacon := DecodeScanRecord(record, rssi, beaconListeningUuid, now);
      if beacon.Some? {
        UpdateBeacon(beacon, false, perms, now);
      }
    }

    /** `updateBeaconPermission`: with an activity, a grant starts the
      * receiver; the pending authorize id is answered, under the
      * `location.authorize` tag, and reset; a denial answers every once and
      * watch id with the error and empties both lists (the scan is left as
      * it is). */
    method UpdateBeaconPermission(isGranted: bool)
      requires Valid()
      modifies this`hasScanner, this`postedScanStarts, this`effects, this`callbacks,
        this`beaconAuthorizeRequestId, this`beaconOnceRequestIds, this`beaconWatchRequestIds
      ensures Valid()
      ensures !hasActivity ==> (
        callbacks == old(callbacks) && effects == old(effects)
        && beaconAuthorizeRequestId == old(beaconAuthorizeRequestId)
        && beaconOnceRequestIds == old(beaconOnceRequestIds) && beaconWatchRequestIds == old(beaconWatchRequestIds))
      ensures hasActivity ==> (
        callbacks == old(callbacks)
          + Answer(LocationAuthorize, old(beaconAuthorizeRequestId), StatusArgs(if isGranted then Authorized else Denied))
          + (if isGranted then []
             else Broadcast(BeaconOnce, old(beaconOnceRequestIds), BeaconWatch, old(beaconWatchRequestIds),
                            BeaconDeniedArgs()))
        && beaconAuthorizeRequestId.None?)
      ensures hasActivity && isGranted ==> (
        hasScanner && postedScanStarts == old(postedScanStarts) + 1
        && beaconOnceRequestIds == old(beaconOnceRequestIds) && beaconWatchRequestIds == old(beaconWatchRequestIds))
      ensures hasActivity && !isGranted ==> (
        beaconOnceRequestIds == [] && beaconWatchRequestIds == [] && effects == old(effects))
    {
      if !hasActivity {
        return;
      }
      AnswerBeaconAuthorization(isGranted);
      if isGranted {
        InitBeaconReceiver();
      }
    }

    /** The page's side of a beacon permission answer: the pending
      * `location.authorize` id gets the status and is reset; a denial
      * answers every once and watch id with the error and empties both
      * lists. */
    method AnswerBeaconAuthorization(isGranted: bool)
      modifies this`callbacks, this`beaconAuthorizeRequestId, this`beaconOnceRequestIds, this`beaconWatchRequestIds
      ensures callbacks == old(callbacks)
        + Answer(LocationAuthorize, old(beaconAuthorizeRequestId), StatusArgs(if isGranted then Authorized else Denied))
        + (if isGranted then []
           else Broadcast(BeaconOnce, old(beaconOnceRequestIds), BeaconWatch, old(beaconWatchRequestIds),
                          BeaconDeniedArgs()))
      ensures beaconAuthorizeRequestId.None?
      ensures isGranted ==> beaconOnceRequestIds == old(beaconOnceRequestIds) && beaconWatchRequestIds == old(beaconWatchRequestIds)
      ensures !isGranted ==> beaconOnceRequestIds == [] && beaconWatchRequestIds == []
    {
      var args := StatusArgs(if isGranted then Authorized else Denied);
      if beaconAuthorizeRequestId.Some? {
        callbacks := callbacks + [Callback(LocationAuthorize, beaconAuthorizeRequestId.value, args)];
      }
      beaconAuthorizeRequestId := None;
      if !isGranted {
        var sent := BroadcastCallbacks(BeaconOnce, beaconOnceRequestIds, BeaconWatch, beaconWatchRequestIds,
                                       BeaconDeniedArgs());
        callbacks := callbacks + sent;
        beaconOnceRequestIds := [];
        beaconWatchRequestIds := [];
      }
    }

    /** `destroyBeacon`: every beacon request is forgotten, the buffer
      * emptied and the scan stopped. */
    method DestroyBeacon()
      requires Valid()
      modifies this`beaconAuthorizeRequestId, this`beaconOnceRequestIds, this`beaconWatchRequestIds,
        this`beaconBuffer, this`isScanningBle, this`effects
      ensures Valid()
      ensures beaconAuthorizeRequestId.None? && beaconOnceRequestIds == [] && beaconWatchRequestIds == []
      ensures beaconBuffer == [] && !isScanningBle
      ensures effects == old(effects) + (if old(isScanningBle) then [StopScan] else [])
    {
      beaconAuthorizeRequestId := None;
      beaconOnceRequestIds := [];
      beaconWatchRequestIds := [];
      beaconBuffer := [];
      StopBeaconRequest();
    }

    // -------------------------------------------------------------------
    // Heading
    // -------------------------------------------------------------------

    /** `startSensorHeadingRequest`: a no-op while a listener exists;
      * otherwise registers one when there is an activity. */
    method StartSensorHeadingRequest()
      requires Valid()
      modifies this`hasHeadingListener, this`effects
      ensures Valid()
      ensures hasHeadingListener == (old(hasHeadingListener) || hasActivity)
      ensures effects == old(effects) + (if !old(hasHeadingListener) && hasActivity then [RegisterHeading] else [])
    {
      if hasHeadingListener {
        return;
      }
      if hasActivity {
        SwitchHeading(true);
      }
    }

    /** `stopSensorHeadingRequest`: idempotent; unregisters the listener. */
    method StopSensorHeadingRequest()
      requires Valid()
      modifies this`hasHeadingListener, this`effects
      ensures Valid()
      ensures !hasHeadingListener
      ensures effects == old(effects) + (if old(hasHeadingListener) then [UnregisterHeading] else [])
    {
      if hasActivity && hasHeadingListener {
        SwitchHeading(false);
      }
    }

    /** A heading computed from the sensors (degrees, rounded): it is
      * remembered, and pushed to every watcher only when more than the
      * push interval has passed since the last push. */
    method OnHeadingReading(heading: int, now: int)
      requires hasHeadingListener
      modifies this`lastMagneticHeading, this`lastMagneticHeadingNotifiedAt, this`callbacks
      ensures lastMagneticHeading == Some(heading)
      ensures now - old(lastMagneticHeadingNotifiedAt) > MagneticHeadingPushInterval ==> (
        callbacks == old(callbacks) + FanOut(HeadingWatch, headingRequestIds, HeadingArgs(heading))
        && lastMagneticHeadingNotifiedAt == now)
      ensures now - old(lastMagneticHeadingNotifiedAt) <= MagneticHeadingPushInterval ==> (
        callbacks == old(callbacks) && lastMagneticHeadingNotifiedAt == old(lastMagneticHeadingNotifiedAt))
    {
      lastMagneticHeading := Some(heading);
      if now - lastMagneticHeadingNotifiedAt > MagneticHeadingPushInterval {
        var sent := CallbacksFor(HeadingWatch, headingRequestIds, HeadingArgs(heading));
        callbacks := callbacks + sent;
        lastMagneticHeadingNotifiedAt := now;
      }
    }

    // -------------------------------------------------------------------
    // Web chrome client and permission results
    // -------------------------------------------------------------------

    /** `onPermissionRequest` for a page's media request: denied without an
      * activity or when it needs no camera or microphone; granted at once
      * when both are granted; otherwise kept while the missing permissions
      * are asked for. */
    method OnPermissionRequest(request: Option<seq<Resource>>, cameraGranted: bool, audioGranted: bool)
      requires Valid()
      modifies this`activePermissionRequest, this`effects
      ensures Valid()
      ensures request.None? ==> (effects == old(effects) && activePermissionRequest == old(activePermissionRequest))
      ensures request.Some? && (!hasActivity || MediaPermissions(request.value) == []) ==> (
        effects == old(effects) + [DenyResources] && activePermissionRequest == old(activePermissionRequest))
      ensures request.Some? && hasActivity && MediaPermissions(request.value) != [] ==> (
        var missing := Ungranted(MediaPermissions(request.value), cameraGranted, audioGranted);
        (missing == [] ==> (effects == old(effects) + [GrantResources(request.value)]
          && activePermissionRequest == old(activePermissionRequest)))
        && (missing != [] ==> (effects == old(effects) + [RequestPermissions(missing, PermissionRequestCode)]
          && activePermissionRequest == request)))
    {
      if request.None? {
        return;
      }
      var resources := request.value;
      if !hasActivity {
        EmitOther(DenyResources);
        return;
      }
      var needed := MediaPermissions(resources);
      if needed != [] {
        var missing := Ungranted(needed, cameraGranted, audioGranted);
        if missing != [] {
          activePermissionRequest := request;
          EmitOther(RequestPermissions(missing, PermissionRequestCode));
        } else {
          EmitOther(GrantResources(resources));
        }
      } else {
        EmitOther(DenyResources);
      }
    }

    /** `onGeolocationPermissionsShowPrompt`: refused without an activity;
      * otherwise the callback and origin are kept, and the page is allowed
      * at once when fine location is granted or after the prompt. */
    method OnGeolocationPermissionsShowPrompt(origin: Option<string>, hasCallback: bool, fineGranted: bool)
      requires Valid()
      modifies this`hasGeolocationCallback, this`geolocationOrigin, this`effects
      ensures Valid()
      ensures !hasCallback ==> (effects == old(effects) && hasGeolocationCallback == old(hasGeolocationCallback)
        && geolocationOrigin == old(geolocationOrigin))
      ensures hasCallback && !hasActivity ==> (effects == old(effects) + [AnswerGeolocation(origin, false)]
        && hasGeolocationCallback == old(hasGeolocationCallback) && geolocationOrigin == old(geolocationOrigin))
      ensures hasCallback && hasActivity ==> (hasGeolocationCallback && geolocationOrigin == origin
        && effects == old(effects) + [if fineGranted then AnswerGeolocation(origin, true)
                                      else RequestPermissions([FineLocation], GeolocationPermissionRequestCode)])
    {
      if !hasCallback {
        return;
      }
      if !hasActivity {
        EmitOther(AnswerGeolocation(origin, false));
        return;
      }
      hasGeolocationCallback := true;
      geolocationOrigin := origin;
      if !fineGranted {
        RequestPermissionsIfPossible([FineLocation], GeolocationPermissionRequestCode);
      } else {
        EmitOther(AnswerGeolocation(origin, true));
      }
    }

    /** `handlePermissionResult`: routes a prompt's answer by request code.
      * A media request is granted iff every result is a grant, the page's
      * geolocation iff the first is; both slots are emptied after their
      * answer. */
    method HandlePermissionResult(requestCode: int, grants: seq<int>)
      requires Valid()
      modifies this`activePermissionRequest, this`hasGeolocationCallback, this`geolocationOrigin,
        this`effects, this`callbacks, this`locationOnceRequestIds, this`locationWatchRequestIds,
        this`locationAuthorizeRequestId, this`hasScanner, this`postedScanStarts,
        this`beaconAuthorizeRequestId, this`beaconOnceRequestIds, this`beaconWatchRequestIds
      ensures Valid()
      ensures requestCode == PermissionRequestCode ==> (
        activePermissionRequest.None? && callbacks == old(callbacks)
        && effects == old(effects) + (if old(activePermissionRequest).None? then []
             else if AllGranted(grants) then [GrantResources(old(activePermissionRequest).value)]
             else [DenyResources]))
      ensures requestCode == GeolocationPermissionRequestCode ==> (
        !hasGeolocationCallback && geolocationOrigin.None? && callbacks == old(callbacks)
        && effects == old(effects) + (if old(hasGeolocationCallback)
             then [AnswerGeolocation(old(geolocationOrigin), FirstGranted(grants))] else []))
      ensures requestCode == RequestCodePermissionsLocation ==> (
        var args := StatusArgs(if AllGranted(grants) then Authorized else Denied);
        callbacks == old(callbacks)
          + (if AllGranted(grants) then []
             else Broadcast(LocationOnce, old(locationOnceRequestIds), LocationWatch, old(locationWatchRequestIds), args))
          + Answer(LocationAuthorize, old(locationAuthorizeRequestId), args)
        && locationAuthorizeRequestId.None? && effects == old(effects))
      ensures requestCode == RequestCodePermissionsBeacon && hasActivity ==> (
        callbacks == old(callbacks)
          + Answer(LocationAuthorize, old(beaconAuthorizeRequestId),
                   StatusArgs(if AllGranted(grants) then Authorized else Denied))
          + (if AllGranted(grants) then []
             else Broadcast(BeaconOnce, old(beaconOnceRequestIds), BeaconWatch, old(beaconWatchRequestIds),
                            BeaconDeniedArgs()))
        && beaconAuthorizeRequestId.None?)
      ensures (requestCode != PermissionRequestCode && requestCode != GeolocationPermissionRequestCode
        && requestCode != RequestCodePermissionsLocation && requestCode != RequestCodePermissionsBeacon) ==> (
        callbacks == old(callbacks) && effects == old(effects))
    {
      var allGranted := AllGranted(grants);
      if requestCode == PermissionRequestCode {
        AnswerMediaRequest(grants);
      } else if requestCode == GeolocationPermissionRequestCode {
        AnswerGeolocationPrompt(grants);
      } else if requestCode == RequestCodePermissionsLocation {
        UpdateLocationPermission(allGranted);
      } else if requestCode == RequestCodePermissionsBeacon {
        UpdateBeaconPermission(allGranted);
      }
    }

    /** The answer to the kept media request: granted iff every result is
      * a grant; the slot is emptied. */
    method AnswerMediaRequest(grants: seq<int>)
      requires Valid()
      modifies this`activePermissionRequest, this`effects
      ensures Valid()
      ensures activePermissionRequest.None?
      ensures effects == old(effects) + (if old(activePermissionRequest).None? then []
             else if AllGranted(grants) then [GrantResources(old(activePermissionRequest).value)]
             else [DenyResources])
    {
      var request := activePermissionRequest;
      activePermissionRequest := None;
      if request.Some? {
        EmitOther(if AllGranted(grants) then GrantResources(request.value) else DenyResources);
      }
    }

    /** The answer to the kept geolocation callback: allowed iff the first
      * result is a grant; callback and origin are emptied. */
    method AnswerGeolocationPrompt(grants: seq<int>)
      requires Valid()
      modifies this`hasGeolocationCallback, this`geolocationOrigin, this`effects
      ensures Valid()
      ensures !hasGeolocationCallback && geolocationOrigin.None?
      ensures effects == old(effects) + (if old(hasGeolocationCallback)
             then [AnswerGeolocation(old(geolocationOrigin), FirstGranted(grants))] else [])
    {
      var pending, origin := hasGeolocationCallback, geolocationOrigin;
      hasGeolocationCallback, geolocationOrigin := false, None;
      if pending {
        EmitOther(AnswerGeolocation(origin, FirstGranted(grants)));
      }
    }

    // -------------------------------------------------------------------
    // Lifecycle
    // -------------------------------------------------------------------

    /** `activityPause`: the location session stops when requests are
      * pending, a running scan pauses, and the heading listener goes. */
    method ActivityPause()
      requires Valid()
      modifies this`isMeasuringLocation, this`isScanningBle, this`isScanningBlePaused,
        this`hasHeadingListener, this`effects
      ensures Valid()
      ensures isMeasuringLocation
        == (old(isMeasuringLocation) && locationOnceRequestIds == [] && locationWatchRequestIds == [])
      ensures !isScanningBle && isScanningBlePaused == (old(isScanningBlePaused) || old(isScanningBle))
      ensures !hasHeadingListener
      ensures effects == old(effects)
        + (if old(isMeasuringLocation) && (locationOnceRequestIds != [] || locationWatchRequestIds != [])
           then [StopLocationUpdates] else [])
        + (if old(isScanningBle) then [StopScan] else [])
        + (if old(hasHeadingListener) then [UnregisterHeading] else [])
    {
      if locationOnceRequestIds != [] || locationWatchRequestIds != [] {
        StopLocationRequest();
      }
      PauseScanningBeacon();
      StopSensorHeadingRequest();
    }

    /** The location part of `activityResume`: with pending requests the
      * session is asked for again, as a once request when no watch is
      * pending, so a running session replays the last fix to the once ids
      * and stops when no watcher is left. */
    method ResumeLocationRequest(perms: Perms)
      requires Valid()
      modifies this`isMeasuringLocation, this`callbacks, this`locationOnceRequestIds, this`effects
      ensures Valid()
      ensures ((old(locationOnceRequestIds) == [] && locationWatchRequestIds == [])
        || LocationPermissionStatus(perms) != Authorized) ==> (
        isMeasuringLocation == old(isMeasuringLocation) && callbacks == old(callbacks)
        && locationOnceRequestIds == old(locationOnceRequestIds) && effects == old(effects))
      ensures ((old(locationOnceRequestIds) != [] || locationWatchRequestIds != [])
        && LocationPermissionStatus(perms) == Authorized && !old(isMeasuringLocation)) ==> (
        isMeasuringLocation && effects == old(effects) + [StartLocationUpdates]
        && callbacks == old(callbacks) && locationOnceRequestIds == old(locationOnceRequestIds))
      ensures (old(locationOnceRequestIds) != [] && locationWatchRequestIds == [] && lastLocation.Some?
        && LocationPermissionStatus(perms) == Authorized && old(isMeasuringLocation)) ==> (
        callbacks == old(callbacks)
          + FanOut(LocationOnce, old(locationOnceRequestIds), LocationArgs(Authorized, lastLocation, false))
        && locationOnceRequestIds == [] && !isMeasuringLocation
        && effects == old(effects) + [StopLocationUpdates])
      ensures ((locationWatchRequestIds != [] || lastLocation.None?)
        && LocationPermissionStatus(perms) == Authorized && old(isMeasuringLocation)) ==> (
        isMeasuringLocation && callbacks == old(callbacks)
        && locationOnceRequestIds == old(locationOnceRequestIds) && effects == old(effects))
    {
      if locationOnceRequestIds != [] || locationWatchRequestIds != [] {
        StartLocationRequest(locationWatchRequestIds == [], perms);
      }
    }

    /** `activityResume`: with pending location requests the session is
      * started again (replaying the last fix when only once ids wait), a
      * paused scan resumes, and the heading listener is registered whether
      * or not anyone watches the heading. */
    method ActivityResume(perms: Perms)
      requires Valid()
      modifies this`isMeasuringLocation, this`callbacks, this`locationOnceRequestIds,
        this`isScanningBle, this`isScanningBlePaused, this`hasHeadingListener, this`effects
      ensures Valid()
      ensures !isScanningBlePaused && isScanningBle == (old(isScanningBle) || old(isScanningBlePaused))
      ensures hasHeadingListener == (old(hasHeadingListener) || hasActivity)
      ensures ((old(locationOnceRequestIds) != [] || locationWatchRequestIds != [])
        && LocationPermissionStatus(perms) == Authorized) ==> (
        isMeasuringLocation == (old(isMeasuringLocation) ==> !(locationWatchRequestIds == [] && lastLocation.Some?)))
      ensures ((old(locationOnceRequestIds) == [] && locationWatchRequestIds == [])
        || LocationPermissionStatus(perms) != Authorized) ==> (
        isMeasuringLocation == old(isMeasuringLocation) && callbacks == old(callbacks)
        && locationOnceRequestIds == old(locationOnceRequestIds))
      ensures (old(locationOnceRequestIds) != [] && locationWatchRequestIds == [] && lastLocation.Some?
        && LocationPermissionStatus(perms) == Authorized && old(isMeasuringLocation)) ==> (
        callbacks == old(callbacks)
          + FanOut(LocationOnce, old(locationOnceRequestIds), LocationArgs(Authorized, lastLocation, false))
        && locationOnceRequestIds == [])
      ensures ((locationWatchRequestIds != [] || lastLocation.None? || !old(isMeasuringLocation))
        && LocationPermissionStatus(perms) == Authorized) ==> (
        callbacks == old(callbacks) && locationOnceRequestIds == old(locationOnceRequestIds))
      ensures effects == old(effects)
        + (if (old(locationOnceRequestIds) != [] || locationWatchRequestIds != [])
             && LocationPermissionStatus(perms) == Authorized
           then (if !old(isMeasuringLocation) then [StartLocationUpdates]
                 else if locationWatchRequestIds == [] && lastLocation.Some? then [StopLocationUpdates] else [])
           else [])
        + (if old(isScanningBlePaused) && !old(isScanningBle) then [StartScan] else [])
        + (if !old(hasHeadingListener) && hasActivity then [RegisterHeading] else [])
    {
      ResumeLocationRequest(perms);
      ResumeScanningBeacon();
      StartSensorHeadingRequest();
    }

    /** `activityDestroy`: the beacon part is torn down and the web view
      * destroyed; location and heading are left to `activityPause`. */
    method ActivityDestroy()
      requires Valid()
      modifies this`beaconAuthorizeRequestId, this`beaconOnceRequestIds, this`beaconWatchRequestIds,
        this`beaconBuffer, this`isScanningBle, this`effects
      ensures Valid()
      ensures beaconAuthorizeRequestId.None? && beaconOnceRequestIds == [] && beaconWatchRequestIds == []
      ensures beaconBuffer == [] && !isScanningBle
      ensures effects == old(effects) + (if old(isScanningBle) then [StopScan] else []) + [DestroyWebView]
    {
      DestroyBeacon();
      EmitOther(DestroyWebView);
    }

    // -------------------------------------------------------------------
    // Page loading
    // -------------------------------------------------------------------

    /** `loadWebView`: loads the page address, if there is one, and records
      * the load. */
    method LoadWebView(now: int)
      requires Valid()
      modifies this`webViewLoadingAt, this`isWebViewLoading, this`effects
      ensures Valid()
      ensures originalUrl.None? ==> (effects == old(effects) && webViewLoadingAt == old(webViewLoadingAt)
        && isWebViewLoading == old(isWebViewLoading))
      ensures originalUrl.Some? ==> (effects == old(effects) + [LoadUrl(originalUrl.value)]
        && webViewLoadingAt == Some(now) && isWebViewLoading)
    {
      if originalUrl.Some? {
        webViewLoadingAt, isWebViewLoading := Some(now), true;
        EmitOther(LoadUrl(originalUrl.value));
      }
    }

    /** `onPageFinished`. */
    method OnPageFinished()
      modifies this`isWebViewLoading
      ensures !isWebViewLoading
    {
      isWebViewLoading := false;
    }

    /** `openPlatinumaps(options, queryPrams)`: builds the map address,
      * listens for the configured beacon UUID, and loads the page. */
    method OpenPlatinumaps(options: MapOptions, queryPrams: Option<string>, now: int)
      requires Valid()
      modifies this`beaconListeningUuid, this`originalUrl, this`webViewLoadingAt, this`isWebViewLoading,
        this`effects
      ensures Valid()
      ensures originalUrl == Some(SdkMapLink(options, queryPrams))
      ensures beaconListeningUuid == (if options.beacon.Some? then Some(options.beacon.value.uuid)
                                      else old(beaconListeningUuid))
      ensures effects == old(effects) + [LoadUrl(SdkMapLink(options, queryPrams))]
      ensures webViewLoadingAt == Some(now) && isWebViewLoading
    {
      var link := SdkMapLink(options, queryPrams);
      if options.beacon.Some? {
        beaconListeningUuid := Some(options.beacon.value.uuid);
      }
      originalUrl := Some(link);
      LoadWebView(now);
    }

    /** `openPlatinumaps(pagePath, mapQuery, safeAreaTop, safeAreaBottom)`. */
    method OpenPlatinumapsPage(pagePath: string, mapQuery: Option<string>, safeAreaTop: int, safeAreaBottom: int,
                               now: int)
      requires Valid()
      modifies this`beaconListeningUuid, this`originalUrl, this`webViewLoadingAt, this`isWebViewLoading,
        this`effects
      ensures Valid()
      ensures originalUrl == Some(SdkMapLink(MapOptions(pagePath, None, safeAreaTop, safeAreaBottom, None), mapQuery))
      ensures beaconListeningUuid == old(beaconListeningUuid)
      ensures effects == old(effects) + [LoadUrl(originalUrl.value)]
    {
      OpenPlatinumaps(MapOptions(pagePath, None, safeAreaTop, safeAreaBottom, None), mapQuery, now);
    }

    // -------------------------------------------------------------------
    // Links
    // -------------------------------------------------------------------

    /** `openWebBrowseInApp`: a Custom Tab, only with an activity. */
    method OpenWebBrowseInApp(target: Uri)
      requires Valid()
      modifies this`effects
      ensures Valid()
      ensures effects == old(effects) + (if hasActivity then [OpenInApp(target)] else [])
    {
      if hasActivity {
        EmitOther(OpenInApp(target));
      }
    }

    /** `openWebBrowseApp` / `openWebBrowseActivity`: handed to the link
      * listener, if one is set. */
    method OpenLinkWithListener(target: Uri, sharedCookie: bool)
      requires Valid()
      modifies this`effects
      ensures Valid()
      ensures effects == old(effects) + (if hasOpenLinkListener then [OpenLink(target, sharedCookie)] else [])
    {
      if hasOpenLinkListener {
        EmitOther(OpenLink(target, sharedCookie));
      }
    }

    /** The link a browse command names, resolved against the page by
      * `parseBrowseUrl`: kept when it names a host or is a `tel` link,
      * otherwise rebuilt on the page's https://platinumaps.jp origin. */
    function BrowseTarget(u: Uri): (r: Option<Uri>)
      reads this`originalUrl
      ensures r.Some? ==> FirstValue(QueryItems(u), "url").Some?
      ensures (FirstValue(QueryItems(u), "url").Some? && originalUrl.Some?) ==> r.Some?
      ensures FirstValue(QueryItems(u), "url").Some? ==>
        var url := FirstValue(QueryItems(u), "url").value;
        (OpensAsWritten(url, true) ==> r == Some(AndroidParse(url)))
        && (!OpensAsWritten(url, true) && originalUrl.Some? ==>
              r.value.scheme == Some("https") && r.value.authority == Some("platinumaps.jp"))
    {
      match FirstValue(QueryItems(u), "url")
      case None => None
      case Some(url) =>
        ResolveBrowseUrl(url, if originalUrl.Some? then Some(LinkUri(originalUrl.value)) else None, true)
    }

    /** `commandWebBrowse`: `browse.app` and `map.navigate` hand the link to
      * the listener; `browse.inapp` opens it in a Custom Tab, or through
      * the listener with the shared cookie when `sharedCookie=true`. */
    method CommandWebBrowse(tag: Tag, u: Uri)
      requires Valid()
      modifies this`effects
      ensures Valid()
      ensures BrowseTarget(u).None? || !(tag == BrowseApp || tag == MapNavigate || tag == BrowseInApp) ==>
        effects == old(effects)
      ensures BrowseTarget(u).Some? && (tag == BrowseApp || tag == MapNavigate) ==> (
        effects == old(effects) + (if hasOpenLinkListener then [OpenLink(BrowseTarget(u).value, false)] else []))
      ensures BrowseTarget(u).Some? && tag == BrowseInApp ==> (
        var shared := FirstValue(QueryItems(u), "sharedCookie") == Some("true");
        effects == old(effects)
          + (if shared then (if hasOpenLinkListener then [OpenLink(BrowseTarget(u).value, true)] else [])
             else (if hasActivity then [OpenInApp(BrowseTarget(u).value)] else [])))
    {
      var target := BrowseTarget(u);
      if target.Some? {
        if tag == BrowseApp || tag == MapNavigate {
          OpenLinkWithListener(target.value, false);
        } else if tag == BrowseInApp {
          var shared := FirstValue(QueryItems(u), "sharedCookie") == Some("true");
          if shared {
            OpenLinkWithListener(target.value, true);
          } else {
            OpenWebBrowseInApp(target.value);
          }
        }
      }
    }

    // -------------------------------------------------------------------
    // Commands
    // -------------------------------------------------------------------

    /** `app.info`. */
    method CommandAppInfo(id: string)
      modifies this`callbacks
      ensures callbacks == old(callbacks) + [Callback(AppInfo, id, AppInfoArgs(userId, secretKey))]
    {
      callbacks := callbacks + [Callback(AppInfo, id, AppInfoArgs(userId, secretKey))];
    }

    /** `web.ready`: the page is ready; a waiting launch URL is handed over
      * once. */
    method CommandWebReady(id: string)
      modifies this`hasWebReady, this`appLinkUri, this`callbacks
      ensures hasWebReady && appLinkUri.None?
      ensures callbacks == old(callbacks) + [Callback(WebReady, id, LaunchArgs(old(appLinkUri)))]
    {
      hasWebReady := true;
      var args := LaunchArgs(appLinkUri);
      appLinkUri := None;
      callbacks := callbacks + [Callback(WebReady, id, args)];
    }

    /** `web.willreload`: the page is no longer ready. */
    method CommandWebWillReload(id: string)
      modifies this`hasWebReady, this`callbacks
      ensures !hasWebReady
      ensures callbacks == old(callbacks) + [Callback(WebWillReload, id, map[])]
    {
      hasWebReady := false;
      callbacks := callbacks + [Callback(WebWillReload, id, map[])];
    }

    /** `location.status`. */
    method CommandLocationStatus(id: string, perms: Perms)
      modifies this`callbacks
      ensures callbacks == old(callbacks) + [Callback(LocationStatus, id, StatusArgs(LocationPermissionStatus(perms)))]
    {
      callbacks := callbacks + [Callback(LocationStatus, id, StatusArgs(LocationPermissionStatus(perms)))];
    }

    /** `location.authorize`: answered at once when authorized; otherwise
      * the id waits for the prompt's answer. */
    method CommandLocationAuthorize(id: string, perms: Perms)
      requires Valid()
      modifies this`callbacks, this`locationOnceRequestIds, this`locationWatchRequestIds,
        this`locationAuthorizeRequestId, this`effects
      ensures Valid()
      ensures LocationPermissionStatus(perms) == Authorized ==> (
        callbacks == old(callbacks) + [Callback(LocationAuthorize, id, StatusArgs(Authorized))]
        && effects == old(effects) && locationAuthorizeRequestId == old(locationAuthorizeRequestId))
      ensures LocationPermissionStatus(perms) != Authorized ==> (
        callbacks == old(callbacks) && locationAuthorizeRequestId == Some(id)
        && effects == old(effects) + [if LocationPermissionStatus(perms) == Denied
             then ShowRationale([FineLocation], RequestCodePermissionsLocation)
             else RequestPermissions([FineLocation], RequestCodePermissionsLocation)])
      ensures locationOnceRequestIds == old(locationOnceRequestIds)
      ensures locationWatchRequestIds == old(locationWatchRequestIds)
    {
      var status := LocationPermissionStatus(perms);
      if status == Authorized {
        callbacks := callbacks + [Callback(LocationAuthorize, id, StatusArgs(status))];
      } else {
        locationAuthorizeRequestId := Some(id);
        RequestLocationPermission(perms);
      }
    }

    /** `location.once` / `location.watch`: the id joins its list and the
      * session is requested. */
    method CommandLocationRequest(tag: Tag, id: string, perms: Perms)
      requires Valid() && (tag == LocationOnce || tag == LocationWatch)
      modifies this`isMeasuringLocation, this`callbacks, this`locationOnceRequestIds,
        this`locationWatchRequestIds, this`locationAuthorizeRequestId, this`effects
      ensures Valid()
      ensures tag == LocationWatch ==> locationWatchRequestIds == old(locationWatchRequestIds) + [id]
      ensures tag == LocationOnce ==> locationWatchRequestIds == old(locationWatchRequestIds)
      ensures LocationPermissionStatus(perms) != Authorized ==> (
        locationOnceRequestIds == old(locationOnceRequestIds) + (if tag == LocationOnce then [id] else [])
        && isMeasuringLocation == old(isMeasuringLocation))
      ensures LocationPermissionStatus(perms) == Authorized ==> isMeasuringLocation || locationWatchRequestIds == []
      ensures LocationPermissionStatus(perms) == Authorized && !old(isMeasuringLocation) ==> (
        isMeasuringLocation && effects == old(effects) + [StartLocationUpdates]
        && locationOnceRequestIds == old(locationOnceRequestIds) + (if tag == LocationOnce then [id] else []))
      ensures (LocationPermissionStatus(perms) == Authorized && old(isMeasuringLocation)
        && tag == LocationOnce && lastLocation.Some?) ==> (
        callbacks == old(callbacks) + Broadcast(LocationOnce, old(locationOnceRequestIds) + [id],
          LocationWatch, locationWatchRequestIds, LocationArgs(Authorized, lastLocation, false))
        && locationOnceRequestIds == [])
      ensures locationAuthorizeRequestId == old(locationAuthorizeRequestId)
    {
      if tag == LocationOnce {
        locationOnceRequestIds := locationOnceRequestIds + [id];
      } else {
        locationWatchRequestIds := locationWatchRequestIds + [id];
      }
      StartLocationRequestFor(tag, id, perms);
    }

    /** `location.clearwatch`: every watcher is dropped and the session stops
      * when no once id waits either. */
    method CommandLocationClearWatch()
      requires Valid()
      modifies this`locationWatchRequestIds, this`isMeasuringLocation, this`effects
      ensures Valid()
      ensures locationWatchRequestIds == []
      ensures isMeasuringLocation == (old(isMeasuringLocation) && locationOnceRequestIds != [])
      ensures effects == old(effects)
        + (if old(isMeasuringLocation) && locationOnceRequestIds == [] then [StopLocationUpdates] else [])
    {
      locationWatchRequestIds := [];
      StopLocationRequestIfNoRequest();
    }

    /** `app.review`: the Play Store page, when the store id is known. */
    method CommandAppReview()
      requires Valid()
      modifies this`effects
      ensures Valid()
      ensures effects == old(effects)
        + (if playStoreId.Some? && hasOpenLinkListener then [OpenLink(PlayStoreUri(playStoreId.value), false)] else [])
    {
      if playStoreId.Some? {
        OpenLinkWithListener(PlayStoreUri(playStoreId.value), false);
      }
    }

    /** `beacon.authorize`: answered at once when authorized (or, without
      * an activity, as denied); otherwise the id waits for the prompt. */
    method CommandBeaconAuthorize(id: string, perms: Perms)
      requires Valid()
      modifies this`callbacks, this`beaconAuthorizeRequestId, this`hasScanner, this`postedScanStarts, this`effects
      ensures Valid()
      ensures !hasActivity ==> (
        callbacks == old(callbacks) + [Callback(BeaconAuthorize, id, StatusArgs(Denied))]
        && beaconAuthorizeRequestId == old(beaconAuthorizeRequestId) && effects == old(effects))
      ensures hasActivity && BeaconPermissionStatusNow(perms) == Authorized ==> (
        callbacks == old(callbacks) + [Callback(BeaconAuthorize, id, StatusArgs(Authorized))]
        && beaconAuthorizeRequestId == old(beaconAuthorizeRequestId) && effects == old(effects))
      ensures hasActivity && BeaconPermissionStatusNow(perms) != Authorized ==> (
        callbacks == old(callbacks) && beaconAuthorizeRequestId == Some(id)
        && (NeedsBeaconPrompt(apiAtLeastS, perms) ==>
              effects == old(effects) + [RequestPermissions(BeaconPermissions(apiAtLeastS), RequestCodePermissionsBeacon)]))
    {
      if hasActivity {
        var status := BeaconPermissionStatusNow(perms);
        if status == Authorized {
          callbacks := callbacks + [Callback(BeaconAuthorize, id, StatusArgs(status))];
        } else {
          beaconAuthorizeRequestId := Some(id);
          RequestBeaconPermission(perms);
        }
        return;
      }
      callbacks := callbacks + [Callback(BeaconAuthorize, id, StatusArgs(Denied))];
    }

    /** `beacon.once` / `beacon.watch`: the id joins its list and the scan
      * is requested. */
    method CommandBeaconRequest(tag: Tag, id: string, perms: Perms)
      requires Valid() && (tag == BeaconOnce || tag == BeaconWatch)
      modifies this`beaconOnceRequestIds, this`beaconWatchRequestIds, this`callbacks, this`hasScanner,
        this`postedScanStarts, this`effects
      ensures Valid()
      ensures beaconOnceRequestIds == old(beaconOnceRequestIds) + (if tag == BeaconOnce then [id] else [])
      ensures beaconWatchRequestIds == old(beaconWatchRequestIds) + (if tag == BeaconWatch then [id] else [])
      ensures !hasActivity ==> callbacks == old(callbacks) + [Callback(tag, id, StatusArgs(Denied))]
      ensures BeaconPermissionStatusNow(perms) == Authorized ==> (
        callbacks == old(callbacks) && hasScanner && postedScanStarts == old(postedScanStarts) + 1)
    {
      if tag == BeaconOnce {
        beaconOnceRequestIds := beaconOnceRequestIds + [id];
      } else {
        beaconWatchRequestIds := beaconWatchRequestIds + [id];
      }
      StartBeaconRequestFor(tag, id, perms);
    }

    /** `beacon.clearwatch`: every watcher is dropped and the scan stops
      * when no once id waits either. */
    method CommandBeaconClearWatch()
      requires Valid()
      modifies this`beaconWatchRequestIds, this`isScanningBle, this`effects
      ensures Valid()
      ensures beaconWatchRequestIds == []
      ensures isScanningBle == (old(isScanningBle) && beaconOnceRequestIds != [])
      ensures effects == old(effects)
        + (if old(isScanningBle) && beaconOnceRequestIds == [] then [StopScan] else [])
    {
      beaconWatchRequestIds := [];
      StopBeaconRequestIfNoRequest();
    }

    /** `heading.watch`: the id joins the watchers and the listener starts. */
    method CommandHeadingWatch(id: string)
      requires Valid()
      modifies this`headingRequestIds, this`hasHeadingListener, this`effects
      ensures Valid()
      ensures headingRequestIds == old(headingRequestIds) + [id]
      ensures hasHeadingListener == (old(hasHeadingListener) || hasActivity)
      ensures effects == old(effects) + (if !old(hasHeadingListener) && hasActivity then [RegisterHeading] else [])
    {
      headingRequestIds := headingRequestIds + [id];
      StartSensorHeadingRequest();
    }

    /** `heading.clearwatch`: every watcher is dropped and the listener
      * stops. */
    method CommandHeadingClearWatch()
      requires Valid()
      modifies this`headingRequestIds, this`hasHeadingListener, this`effects
      ensures Valid()
      ensures headingRequestIds == [] && !hasHeadingListener
      ensures effects == old(effects) + (if old(hasHeadingListener) then [UnregisterHeading] else [])
    {
      headingRequestIds := [];
      StopSensorHeadingRequest();
    }

    /** What a page command answers at once: `app.info` the user id and
      * secret key, `web.ready` the waiting launch URL, `web.willreload`
      * nothing but its id. */
    function PageAnswer(tag: Tag, id: string): Option<Callback>
      reads this`userId, this`secretKey, this`appLinkUri
    {
      if tag == AppInfo then Some(Callback(AppInfo, id, AppInfoArgs(userId, secretKey)))
      else if tag == WebReady then Some(Callback(WebReady, id, LaunchArgs(appLinkUri)))
      else if tag == WebWillReload then Some(Callback(WebWillReload, id, map[]))
      else None
    }

    /** What a permission command answers at once: `location.status` the
      * location status; `location.authorize` when that status is
      * authorized; `beacon.authorize` denied without an activity and
      * authorized when the beacon permissions are. None when the command
      * waits for the user's answer. */
    function PermissionAnswer(tag: Tag, id: string, perms: Perms): Option<Callback> {
      if tag == LocationStatus then Some(Callback(LocationStatus, id, StatusArgs(LocationPermissionStatus(perms))))
      else if tag == LocationAuthorize && LocationPermissionStatus(perms) == Authorized then
        Some(Callback(LocationAuthorize, id, StatusArgs(Authorized)))
      else if tag == BeaconAuthorize && !hasActivity then Some(Callback(BeaconAuthorize, id, StatusArgs(Denied)))
      else if tag == BeaconAuthorize && BeaconPermissionStatusNow(perms) == Authorized then
        Some(Callback(BeaconAuthorize, id, StatusArgs(Authorized)))
      else None
    }

    /** The answer a command gives at once, if it gives one. */
    function ImmediateAnswer(tag: Tag, id: string, perms: Perms): Option<Callback>
      reads this`userId, this`secretKey, this`appLinkUri
    {
      if PageAnswer(tag, id).Some? then PageAnswer(tag, id) else PermissionAnswer(tag, id, perms)
    }

    /** The page and link commands of `runCommand`. */
    method RunPageCommand(tag: Tag, id: string, u: Uri)
      requires Valid()
      modifies this`callbacks, this`hasWebReady, this`appLinkUri, this`effects
      ensures Valid()
      ensures EchoesEmpty(tag) ==> callbacks == old(callbacks)
      ensures old(PageAnswer(tag, id)).Some? ==> callbacks == old(callbacks) + [old(PageAnswer(tag, id)).value]
      ensures tag == WebReady ==> hasWebReady && appLinkUri.None?
      ensures tag == WebWillReload ==> !hasWebReady
    {
      if tag == AppInfo {
        CommandAppInfo(id);
      } else if tag == WebReady {
        CommandWebReady(id);
      } else if tag == WebWillReload {
        CommandWebWillReload(id);
      } else if tag == BrowseApp || tag == BrowseInApp || tag == MapNavigate {
        CommandWebBrowse(tag, u);
      } else if tag == AppReview {
        CommandAppReview();
      }
    }

    /** The location commands of `runCommand`. */
    method RunLocationCommand(tag: Tag, id: string, perms: Perms)
      requires Valid() && IsLocationTag(tag)
      modifies this`isMeasuringLocation, this`callbacks, this`locationOnceRequestIds,
        this`locationWatchRequestIds, this`locationAuthorizeRequestId, this`effects
      ensures Valid()
      ensures EchoesEmpty(tag) ==> callbacks == old(callbacks)
      ensures PermissionAnswer(tag, id, perms).Some? ==>
        callbacks == old(callbacks) + [PermissionAnswer(tag, id, perms).value]
      ensures tag == LocationAuthorize && PermissionAnswer(tag, id, perms).None? ==>
        callbacks == old(callbacks) && locationAuthorizeRequestId == Some(id)
    {
      if tag == LocationStatus {
        CommandLocationStatus(id, perms);
      } else if tag == LocationAuthorize {
        CommandLocationAuthorize(id, perms);
      } else if tag == LocationOnce || tag == LocationWatch {
        CommandLocationRequest(tag, id, perms);
      } else {
        CommandLocationClearWatch();
      }
    }

    /** The beacon commands of `runCommand`. */
    method RunBeaconCommand(tag: Tag, id: string, perms: Perms)
      requires Valid() && IsBeaconTag(tag)
      modifies this`callbacks, this`beaconAuthorizeRequestId, this`beaconOnceRequestIds,
        this`beaconWatchRequestIds, this`hasScanner, this`postedScanStarts, this`isScanningBle, this`effects
      ensures Valid()
      ensures EchoesEmpty(tag) ==> callbacks == old(callbacks)
      ensures PermissionAnswer(tag, id, perms).Some? ==>
        callbacks == old(callbacks) + [PermissionAnswer(tag, id, perms).value]
      ensures tag == BeaconAuthorize && PermissionAnswer(tag, id, perms).None? ==>
        callbacks == old(callbacks) && beaconAuthorizeRequestId == Some(id)
    {
      if tag == BeaconAuthorize {
        CommandBeaconAuthorize(id, perms);
      } else if tag == BeaconOnce || tag == BeaconWatch {
        CommandBeaconRequest(tag, id, perms);
      } else {
        CommandBeaconClearWatch();
      }
    }

    /** The sensor commands of `runCommand`: location, beacons and heading. */
    method RunSensorCommand(tag: Tag, id: string, perms: Perms)
      requires Valid() && (IsLocationTag(tag) || IsBeaconTag(tag) || tag == HeadingWatch || tag == HeadingClearWatch)
      modifies this
      ensures Valid()
      ensures EchoesEmpty(tag) ==> callbacks == old(callbacks)
      ensures PermissionAnswer(tag, id, perms).Some? ==>
        callbacks == old(callbacks) + [PermissionAnswer(tag, id, perms).value]
      ensures tag == LocationAuthorize && PermissionAnswer(tag, id, perms).None? ==>
        callbacks == old(callbacks) && locationAuthorizeRequestId == Some(id)
      ensures tag == BeaconAuthorize && PermissionAnswer(tag, id, perms).None? ==>
        callbacks == old(callbacks) && beaconAuthorizeRequestId == Some(id)
    {
      if IsLocationTag(tag) {
        RunLocationCommand(tag, id, perms);
      } else if IsBeaconTag(tag) {
        RunBeaconCommand(tag, id, perms);
      } else if tag == HeadingWatch {
        CommandHeadingWatch(id);
      } else {
        CommandHeadingClearWatch();
      }
    }

    /** The command-specific part of `runCommand`: an immediate answer is
      * the one callback added; an authorization that waits keeps its id. */
    method Dispatch(tag: Tag, id: string, u: Uri, perms: Perms)
      requires Valid()
      modifies this
      ensures Valid()
      ensures EchoesEmpty(tag) ==> callbacks == old(callbacks)
      ensures old(ImmediateAnswer(tag, id, perms)).Some? ==>
        callbacks == old(callbacks) + [old(ImmediateAnswer(tag, id, perms)).value]
      ensures tag == LocationAuthorize && PermissionAnswer(tag, id, perms).None? ==>
        callbacks == old(callbacks) && locationAuthorizeRequestId == Some(id)
      ensures tag == BeaconAuthorize && PermissionAnswer(tag, id, perms).None? ==>
        callbacks == old(callbacks) && beaconAuthorizeRequestId == Some(id)
    {
      if IsLocationTag(tag) || IsBeaconTag(tag) || tag == HeadingWatch || tag == HeadingClearWatch {
        assert ImmediateAnswer(tag, id, perms) == PermissionAnswer(tag, id, perms);
        RunSensorCommand(tag, id, perms);
      } else {
        assert ImmediateAnswer(tag, id, perms) == PageAnswer(tag, id);
        RunPageCommand(tag, id, u);
      }
    }

    /** `runCommand`: 1 when the host names no tag or there is no
      * `requestId`, and then nothing happens; otherwise the command runs,
      * the inert and clearing commands end with the empty echo, and 0. */
    method RunCommand(u: Uri, perms: Perms) returns (r: int)
      requires Valid()
      modifies this
      ensures Valid()
      ensures r == (if AndroidRequest(AndroidSdkTags, u).None? then 1 else 0)
      ensures AndroidRequest(AndroidSdkTags, u).None? ==> unchanged(this)
      ensures var req := AndroidRequest(AndroidSdkTags, u);
        req.Some? && EchoesEmpty(req.value.tag) ==>
          callbacks == old(callbacks) + [Callback(req.value.tag, req.value.requestId, map[])]
      ensures var req := AndroidRequest(AndroidSdkTags, u);
        req.Some? && old(ImmediateAnswer(req.value.tag, req.value.requestId, perms)).Some? ==>
          callbacks == old(callbacks) + [old(ImmediateAnswer(req.value.tag, req.value.requestId, perms)).value]
    {
      var req := AndroidRequest(AndroidSdkTags, u);
      if req.None? {
        return 1;
      }
      RunDecoded(req.value.tag, req.value.requestId, u, perms);
      return 0;
    }

    /** A decoded command runs, followed by its echo. */
    method RunDecoded(tag: Tag, id: string, u: Uri, perms: Perms)
      requires Valid()
      modifies this
      ensures Valid()
      ensures EchoesEmpty(tag) ==> callbacks == old(callbacks) + [Callback(tag, id, map[])]
      ensures old(ImmediateAnswer(tag, id, perms)).Some? ==>
        callbacks == old(callbacks) + [old(ImmediateAnswer(tag, id, perms)).value]
    {
      Dispatch(tag, id, u, perms);
      if EchoesEmpty(tag) {
        callbacks := callbacks + [Callback(tag, id, map[])];
      }
    }

    /** `openRequest`: a `command` URI is always consumed (0); any other URI
      * goes to a Custom Tab once the page is ready (0) and is left to the
      * web view before that (1). */
    method OpenRequest(u: Uri, perms: Perms) returns (r: int)
      requires Valid()
      modifies this
      ensures Valid()
      ensures r == (if u.scheme == Some("command") || old(hasWebReady) then 0 else 1)
      ensures u.scheme != Some("command") ==> (
        callbacks == old(callbacks)
        && effects == old(effects) + (if old(hasWebReady) && hasActivity then [OpenInApp(u)] else []))
      ensures u.scheme == Some("command") && AndroidRequest(AndroidSdkTags, u).None? ==> unchanged(this)
    {
      if u.scheme == Some("command") {
        var _ := RunCommand(u, perms);
      } else if hasWebReady {
        OpenWebBrowseInApp(u);
      } else {
        return 1;
      }
      return 0;
    }

    /** `shouldOverrideUrlLoading`: the web view skips exactly the
      * navigations the bridge consumed. */
    method ShouldOverrideUrlLoading(request: Option<Uri>, perms: Perms) returns (handled: bool)
      requires Valid()
      modifies this
      ensures Valid()
      ensures handled == (request.Some? && (request.value.scheme == Some("command") || old(hasWebReady)))
      ensures request.None? ==> unchanged(this)
    {
      if request.Some? {
        var r := OpenRequest(request.value, perms);
        if r == 0 {
          return true;
        }
      }
      return false;
    }
  }
}
