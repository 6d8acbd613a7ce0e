// The iOS SDK's map screen (PMMainViewController): it decodes the page's
// `command://` requests over nineteen tags, keeps the once and watch ids of
// the location and beacon requests, runs at most one location session and
// one beacon monitoring/ranging pair, and asks the user about a denied
// permission with at most one alert at a time.
//
// Much of its work is deferred: a `Task` queries the authorization status
// off the main thread and continues later, and the first location answer
// waits 120 ms. Each such continuation is an explicit event here: a queued
// `Task` is a `PendingTask` that `RunTask` runs, in order, with the status
// the query returned; the delayed first answer is
// `FirstLocationCallbackFires`. What the controller asks of the system is
// appended to `effects`, what it answers the page to `callbacks`, and the
// commands it pushes to the page to `pushes`.
module IosSdkController {
  import opened Common
  import opened Uri
  import opened Protocol
  import opened Permissions
  import opened MapUrl

  /** The longest the cover image stays after the screen loaded, in ms. */
  const CoverMinimum := 1000

  /** A position as CLLocation reports it. */
  datatype Coordinate = Coordinate(latitude: real, longitude: real)

  /** One ranged beacon as CLBeacon reports it (`timestamp` in ms since
    * the epoch). */
  datatype RangedBeacon = RangedBeacon(
    uuid: string, major: int, minor: int, rssi: int, timestamp: int, accuracy: real, proximity: int)

  /** What the controller asks of the system. */
  datatype Effect =
    | LoadPage(target: Uri)
    | ShowCover | HideCover(delay: int)
    | RequestWhenInUseAuthorization
    | PresentDeniedAlert | PresentRestrictedAlert | OpenSettings
    | StartUpdatingLocation | StopUpdatingLocation | RequestLocation
    | StartMonitoringBeacons | StopMonitoringBeacons | RequestRegionState
    | StartRangingBeacons | StopRangingBeacons
    | OpenUrl(target: Uri)
    | DelegateOpenLink(target: Uri, sharedCookie: bool)
    | PresentSafari(target: Uri) | PresentWebViewController(target: Uri)
    | DismissPresented

  /** Who awaits the answer to the denied-permission alert. */
  datatype Waiter = LocationWaiter | BeaconWaiter

  /** A continuation queued on the main actor. */
  datatype PendingTask =
    | AnswerStatus(tag: Tag, requestId: string)
    | AuthorizeOrAnswer(tag: Tag, requestId: string)
    | AnswerAuthorize(status: ClAuthorizationStatus, requestId: string)
    | StartLocation(isOnce: bool, isSilent: bool)
    /** The silent restart after an authorization change, which decides
      * `isOnce` from the watch ids when it runs. */
    | RestartLocationOnGrant
    | ReportLocation(location: Option<Coordinate>, heading: Option<real>, hasError: bool, clearsWatchAfter: bool)
    | StartBeacon(isSilent: bool)
    | ReportBeaconError

  /** A command pushed to the page (`commandPush`). */
  datatype Push = Push(command: string, args: Args)

  /** The change a start or stop effect makes to a session count. */
  function Delta<T(==)>(e: T, start: T, stop: T): int {
    if e == start then 1 else if e == stop then -1 else 0
  }

  // ---------------------------------------------------------------------
  // Answers
  // ---------------------------------------------------------------------

  /** `locationStatusCommandCallback`'s arguments. */
  function StatusAnswer(s: ClAuthorizationStatus): (a: Args)
    ensures a.Keys == {"status"}
    ensures a["status"] == Text(RawValue(WireStatus(s)))
  {
    StatusTextAgreesWithWire(s);
    map["status" := Text(StatusText(s))]
  }

  /** `locationCommandCallback`'s arguments: the position and heading when
    * known, `hasError` only on an error, and always the status text. */
  function LocationReportArgs(location: Option<Coordinate>, heading: Option<real>, hasError: bool,
                              status: ClAuthorizationStatus): (a: Args)
    ensures ("lat" in a <==> location.Some?) && ("lng" in a <==> location.Some?)
    ensures location.Some? ==> (a["lat"] == Number(location.value.latitude)
      && a["lng"] == Number(location.value.longitude))
    ensures "heading" in a <==> heading.Some?
    ensures heading.Some? ==> a["heading"] == Number(heading.value)
    ensures "hasError" in a <==> hasError
    ensures hasError ==> a["hasError"] == Flag(true)
    ensures "status" in a && a["status"] == Text(StatusText(status))
    ensures a.Keys <= {"lat", "lng", "heading", "hasError", "status"}
  {
    var position: Args := if location.Some? then
        map["lat" := Number(location.value.latitude), "lng" := Number(location.value.longitude)]
      else map[];
    var withHeading := if heading.Some? then position["heading" := Number(heading.value)] else position;
    var withError := if hasError then withHeading["hasError" := Flag(true)] else withHeading;
    withError["status" := Text(StatusText(status))]
  }

  /** `app.info`'s arguments: the user id and secret key unless empty, and
    * the bottom offset. */
  function AppInfoArgs(userId: Option<string>, secretKey: Option<string>, offsetBottom: int): (a: Args)
    ensures "userId" in a <==> userId.Some? && userId.value != ""
    ensures "userId" in a ==> a["userId"] == Text(userId.value)
    ensures "secretKey" in a <==> secretKey.Some? && secretKey.value != ""
    ensures "secretKey" in a ==> a["secretKey"] == Text(secretKey.value)
    ensures "offsetBottom" in a && a["offsetBottom"] == Integer(offsetBottom)
    ensures a.Keys <= {"userId", "secretKey", "offsetBottom"}
  {
    var withUser: Args := if userId.Some? && userId.value != "" then map["userId" := Text(userId.value)] else map[];
    var withKey := if secretKey.Some? && secretKey.value != "" then withUser["secretKey" := Text(secretKey.value)]
      else withUser;
    withKey["offsetBottom" := Integer(offsetBottom)]
  }

  /** One beacon as the page receives it. */
  function BeaconRecord(b: RangedBeacon): map<string, Value> {
    map["uuid" := Text(b.uuid), "major" := Integer(b.major), "minor" := Integer(b.minor),
        "rssi" := Integer(b.rssi), "timestamp" := Integer(b.timestamp), "accuracy" := Number(b.accuracy),
        "proximity" := Integer(b.proximity)]
  }

  /** The beacons with a known distance (accuracy above 0), in order. */
  function InRange(beacons: seq<RangedBeacon>): (r: seq<RangedBeacon>)
    ensures |r| <= |beacons|
    ensures forall b :: b in r <==> b in beacons && b.accuracy > 0.0
    decreases |beacons|
  {
    if |beacons| == 0 then []
    else
      var init := beacons[..|beacons| - 1];
      var last := beacons[|beacons| - 1];
      assert beacons == init + [last];
      InRange(init) + (if last.accuracy > 0.0 then [last] else [])
  }

  function BeaconRecords(beacons: seq<RangedBeacon>): (rs: seq<map<string, Value>>)
    ensures |rs| == |beacons|
    ensures forall i :: 0 <= i < |beacons| ==> rs[i] == BeaconRecord(beacons[i])
  {
    seq(|beacons|, i requires 0 <= i < |beacons| => BeaconRecord(beacons[i]))
  }

  lemma InRangeStep(beacons: seq<RangedBeacon>, k: nat)
    requires k < |beacons|
    ensures InRange(beacons[..k + 1]) == InRange(beacons[..k]) + (if beacons[k].accuracy > 0.0 then [beacons[k]] else [])
  {
    assert beacons[..k + 1][..k] == beacons[..k];
  }

  lemma BeaconRecordsAppend(a: seq<RangedBeacon>, b: seq<RangedBeacon>)
    ensures BeaconRecords(a + b) == BeaconRecords(a) + BeaconRecords(b)
  {
  }

  /** Loop form of the list `beaconCommandCallback` builds: the records of
    * the beacons in range, in order. */
  method RangedRecords(beacons: seq<RangedBeacon>) returns (records: seq<map<string, Value>>)
    ensures records == BeaconRecords(InRange(beacons))
    ensures |records| <= |beacons|
  {
    records := [];
    var k := 0;
    while k < |beacons|
      invariant 0 <= k <= |beacons|
      invariant records == BeaconRecords(InRange(beacons[..k]))
    {
      var next := if beacons[k].accuracy > 0.0 then [beacons[k]] else [];
      InRangeStep(beacons, k);
      BeaconRecordsAppend(InRange(beacons[..k]), next);
      records := records + BeaconRecords(next);
      k := k + 1;
    }
    assert beacons[..k] == beacons;
  }

  /** The answer to every beacon id after a scan. */
  function BeaconListArgs(records: seq<map<string, Value>>): Args {
    map["beacons" := Records(records)]
  }

  /** The answer to every beacon id after an error. */
  function BeaconErrorArgs(status: ClAuthorizationStatus): (a: Args)
    ensures a.Keys == {"hasError", "status"} && a["hasError"] == Flag(true)
    ensures a["status"] == Text(StatusText(status))
  {
    map["hasError" := Flag(true), "status" := Text(StatusText(status))]
  }

  /** The continuation of a caller the alert answer "cancel" resumes. */
  function DeclinedFollowUp(w: Waiter): PendingTask {
    if w == LocationWaiter then ReportLocation(None, None, false, false) else ReportBeaconError
  }

  function DeclinedFollowUps(ws: seq<Waiter>): (ts: seq<PendingTask>)
    ensures |ts| == |ws| && forall i :: 0 <= i < |ws| ==> ts[i] == DeclinedFollowUp(ws[i])
  {
    seq(|ws|, i requires 0 <= i < |ws| => DeclinedFollowUp(ws[i]))
  }

  /** The map address of the first appearance: the culture when given,
    * `native=1`, the host's query, and the safe area (a zero bottom when the
    * host offsets the page itself). */
  function PageAddress(mapSlug: string, culture: Option<string>, mapQuery: seq<Param>, top: int, bottom: int,
                       offsetBottom: int): Uri {
    LinkUri(IosMapLink(mapSlug, culture, mapQuery, top, bottom, offsetBottom))
  }

  /** The link a browse command names: as written when it has a scheme,
    * otherwise read against the page address (section 5.2 of RFC 3986,
    * dot segments removed): the page's scheme, the page's authority unless
    * the link names one, and the link's own query and fragment. */
  function BrowseTarget(target: string, original: Option<Uri>): (u: Uri)
    ensures Parse(target).scheme.Some? || original.None? ==> u == Parse(target)
    ensures var r := Parse(target);
      r.scheme.None? && original.Some? ==>
        u.scheme == original.value.scheme
        && u.authority == (if r.authority.Some? then r.authority else original.value.authority)
        && u.fragment == r.fragment && (r.query.Some? ==> u.query == r.query)
  {
    var r := Parse(target);
    if r.scheme.Some? || original.None? then r else ResolveReference(r, original.value)
  }

  /** The App Store review page of an application. */
  function ReviewUri(appId: string): Uri {
    Parse("https://itunes.apple.com/app/id" + appId + "?action=write-review")
  }

  predicate IsWebScheme(u: Uri) {
    u.scheme == Some("https") || u.scheme == Some("http")
  }

  /** The commands whose handling ends in the empty echo callback: all but
    * the status, authorization, once/watch and page-state commands, and a
    * browse command the host's delegate took over. `app.info` is among
    * them: its own answer is followed by the echo. */
  predicate IosEchoes(tag: Tag, hasDelegate: bool, query: map<string, string>) {
    tag == AppInfo || tag == LocationClearWatch || tag == BeaconClearWatch || tag == StampRallyQrCode
    || tag == AppDetect || tag == AppReview || tag == MapNavigate || tag == SearchFocus
    || ((tag == BrowseApp || tag == BrowseInApp) && !(hasDelegate && "url" in query))
  }

  class PMMainViewController {
    const mapSlug: string
    /** A beacon UUID was given and reads as a UUID. */
    const useBeacon: bool
    /** A cover image was given. */
    const hasCover: bool
    const offsetBottom: int
    /** When the screen was created, in ms (`loadAt`). */
    const loadAt: int
    const userId: Option<string>
    const secretKey: Option<string>
    const appStoreId: Option<string>
    /** The host set a delegate that opens links itself. */
    const hasDelegate: bool

    /** The universal link the application was opened with, waiting for
      * `web.ready`. */
    var launchUrl: Option<string>
    var isFirstViewAppear: bool
    var originalUrl: Option<Uri>
    var isWebViewLoading: bool
    var hasWebReady: bool
    var webViewLoadingAt: Option<int>
    /** The cover image is opaque. */
    var coverShown: bool

    var isMeasuringLocation: bool
    /** 0 before the first position of a session, 1 while its answer is
      * delayed, 2 afterwards. */
    var locationCallbackStatus: int
    /** Delayed first answers not yet run. */
    var pendingFirstCallbacks: nat
    var lastHeading: Option<real>
    var locationAuthorizeRequestId: Option<string>
    var locationOnceRequestIds: seq<string>
    var locationWatchRequestIds: seq<string>
    /** `alertTaskForLocationDenied`: the callers awaiting the alert on
      * screen, None when there is none. */
    var deniedAlertWaiters: Option<seq<Waiter>>
    var isAlertPresentedForLocationRestricted: bool

    var beaconOnceRequestIds: seq<string>
    var beaconWatchRequestIds: seq<string>
    var isMonitoringBeacon: bool
    var isRangingBeacon: bool
    var isBeaconPaused: bool

    var tasks: seq<PendingTask>
    var callbacks: seq<Callback>
    var pushes: seq<Push>
    var effects: seq<Effect>

    static function LocationSessions(log: seq<Effect>): int {
      Balance(log, StartUpdatingLocation, StopUpdatingLocation)
    }

    static function MonitoringSessions(log: seq<Effect>): int {
      Balance(log, StartMonitoringBeacons, StopMonitoringBeacons)
    }

    static function RangingSessions(log: seq<Effect>): int {
      Balance(log, StartRangingBeacons, StopRangingBeacons)
    }

    /** One location session runs exactly while `isMeasuringLocation`, one
      * beacon monitoring exactly while `isMonitoringBeacon` and one ranging
      * exactly while `isRangingBeacon`; without beacons neither runs; an
      * alert on screen has a caller waiting for it. */
    predicate Valid()
      reads this`effects, this`isMeasuringLocation, this`isMonitoringBeacon, this`isRangingBeacon,
        this`locationCallbackStatus, this`deniedAlertWaiters, this`coverShown
    {
      LocationSessions(effects) == (if isMeasuringLocation then 1 else 0)
      && MonitoringSessions(effects) == (if isMonitoringBeacon then 1 else 0)
      && RangingSessions(effects) == (if isRangingBeacon then 1 else 0)
      && (!useBeacon ==> !isMonitoringBeacon && !isRangingBeacon)
      && 0 <= locationCallbackStatus <= 2
      && (deniedAlertWaiters.Some? ==> |deniedAlertWaiters.value| > 0)
      && (coverShown ==> hasCover)
    }

    /** The screen as the host configured it, in the state `viewDidLoad`
      * leaves. `viewDidLoad` stops the application with `fatalError` when
      * the slug is empty, which is why the slug must not be empty here. */
    constructor (mapSlug: string, useBeacon: bool, hasCover: bool, offsetBottom: int, loadAt: int,
                 userId: Option<string>, secretKey: Option<string>, appStoreId: Option<string>, hasDelegate: bool,
                 launchUrl: Option<string>)
      requires mapSlug != ""
      ensures Valid()
      ensures this.mapSlug == mapSlug && this.useBeacon == useBeacon && this.hasCover == hasCover
      ensures this.offsetBottom == offsetBottom && this.loadAt == loadAt && this.userId == userId
      ensures this.secretKey == secretKey && this.appStoreId == appStoreId && this.hasDelegate == hasDelegate
      ensures this.launchUrl == launchUrl && isFirstViewAppear && originalUrl.None? && coverShown == hasCover
      ensures !isWebViewLoading && !hasWebReady && webViewLoadingAt.None?
      ensures !isMeasuringLocation && locationCallbackStatus == 0 && pendingFirstCallbacks == 0 && lastHeading.None?
      ensures locationAuthorizeRequestId.None? && locationOnceRequestIds == [] && locationWatchRequestIds == []
      ensures deniedAlertWaiters.None? && !isAlertPresentedForLocationRestricted
      ensures beaconOnceRequestIds == [] && beaconWatchRequestIds == []
      ensures !isMonitoringBeacon && !isRangingBeacon && !isBeaconPaused
      ensures tasks == [] && callbacks == [] && pushes == [] && effects == []
    {
      this.mapSlug := mapSlug;
      this.useBeacon := useBeacon;
      this.hasCover := hasCover;
      this.offsetBottom := offsetBottom;
      this.loadAt := loadAt;
      this.userId := userId;
      this.secretKey := secretKey;
      this.appStoreId := appStoreId;
      this.hasDelegate := hasDelegate;
      this.launchUrl := launchUrl;
      isFirstViewAppear := true;
      originalUrl := None;
      isWebViewLoading := false;
      hasWebReady := false;
      webViewLoadingAt := None;
      coverShown := hasCover;
      isMeasuringLocation := false;
      locationCallbackStatus := 0;
      pendingFirstCallbacks := 0;
      lastHeading := None;
      locationAuthorizeRequestId := None;
      locationOnceRequestIds := [];
      locationWatchRequestIds := [];
      deniedAlertWaiters := None;
      isAlertPresentedForLocationRestricted := false;
      beaconOnceRequestIds := [];
      beaconWatchRequestIds := [];
      isMonitoringBeacon := false;
      isRangingBeacon := false;
      isBeaconPaused := false;
      tasks := [];
      callbacks := [];
      pushes := [];
      effects := [];
    }

    /** An effect that starts or stops no sensor session keeps the
      * invariant. */
    method EmitOther(e: Effect)
      requires Valid()
      requires e != StartUpdatingLocation && e != StopUpdatingLocation
      requires e != StartMonitoringBeacons && e != StopMonitoringBeacons
      requires e != StartRangingBeacons && e != StopRangingBeacons
      modifies this`effects
      ensures Valid() && effects == old(effects) + [e]
    {
      BalanceAppend(effects, e, StartUpdatingLocation, StopUpdatingLocation);
      BalanceAppend(effects, e, StartMonitoringBeacons, StopMonitoringBeacons);
      BalanceAppend(effects, e, StartRangingBeacons, StopRangingBeacons);
      effects := effects + [e];
    }

    /** Opens or closes the location session: the event is logged and the flag
      * follows it. */
    method SwitchLocation(on: bool)
      requires Valid() && isMeasuringLocation != on
      modifies this`effects, this`isMeasuringLocation
      ensures Valid() && isMeasuringLocation == on
      ensures effects == old(effects) + [if on then StartUpdatingLocation else StopUpdatingLocation]
    {
      var e := if on then StartUpdatingLocation else StopUpdatingLocation;
      BalanceAppend(effects, e, StartUpdatingLocation, StopUpdatingLocation);
      BalanceAppend(effects, e, StartMonitoringBeacons, StopMonitoringBeacons);
      BalanceAppend(effects, e, StartRangingBeacons, StopRangingBeacons);
      effects := effects + [e];
      isMeasuringLocation := on;
    }

    /** Opens or closes beacon monitoring: the event is logged and the flag
      * follows it. */
    method SwitchMonitoring(on: bool)
      requires Valid() && isMonitoringBeacon != on && (on ==> useBeacon)
      modifies this`effects, this`isMonitoringBeacon
      ensures Valid() && isMonitoringBeacon == on
      ensures effects == old(effects) + [if on then StartMonitoringBeacons else StopMonitoringBeacons]
    {
      var e := if on then StartMonitoringBeacons else StopMonitoringBeacons;
      BalanceAppend(effects, e, StartUpdatingLocation, StopUpdatingLocation);
      BalanceAppend(effects, e, StartMonitoringBeacons, StopMonitoringBeacons);
      BalanceAppend(effects, e, StartRangingBeacons, StopRangingBeacons);
      effects := effects + [e];
      isMonitoringBeacon := on;
    }

    /** Opens or closes beacon ranging: the event is logged and the flag
      * follows it. */
    method SwitchRanging(on: bool)
      requires Valid() && isRangingBeacon != on && (on ==> useBeacon)
      modifies this`effects, this`isRangingBeacon
      ensures Valid() && isRangingBeacon == on
      ensures effects == old(effects) + [if on then StartRangingBeacons else StopRangingBeacons]
    {
      var e := if on then StartRangingBeacons else StopRangingBeacons;
      BalanceAppend(effects, e, StartUpdatingLocation, StopUpdatingLocation);
      BalanceAppend(effects, e, StartMonitoringBeacons, StopMonitoringBeacons);
      BalanceAppend(effects, e, StartRangingBeacons, StopRangingBeacons);
      effects := effects + [e];
      isRangingBeacon := on;
    }

    method Enqueue(t: PendingTask)
      modifies this`tasks
      ensures tasks == old(tasks) + [t]
    {
      tasks := tasks + [t];
    }

    // -------------------------------------------------------------------
    // Page
    // -------------------------------------------------------------------

    /** `viewDidAppear`: the first appearance builds the map address from
      * the insets and loads it. */
    method ViewDidAppear(culture: Option<string>, mapQuery: seq<Param>, safeAreaTop: int, safeAreaBottom: int)
      requires Valid()
      modifies this`isFirstViewAppear, this`originalUrl, this`effects
      ensures Valid() && !isFirstViewAppear
      ensures old(isFirstViewAppear) ==> (
        originalUrl == Some(PageAddress(mapSlug, culture, mapQuery, safeAreaTop, safeAreaBottom, offsetBottom))
        && effects == old(effects) + [LoadPage(originalUrl.value)])
      ensures !old(isFirstViewAppear) ==> originalUrl == old(originalUrl) && effects == old(effects)
    {
      if isFirstViewAppear {
        LoadPageAddress(PageAddress(mapSlug, culture, mapQuery, safeAreaTop, safeAreaBottom, offsetBottom));
      }
      isFirstViewAppear := false;
    }

    /** The page address is kept and loaded. */
    method LoadPageAddress(target: Uri)
      requires Valid()
      modifies this`originalUrl, this`effects
      ensures Valid()
      ensures originalUrl == Some(target) && effects == old(effects) + [LoadPage(target)]
    {
      originalUrl := Some(target);
      EmitOther(LoadPage(target));
    }

    /** `didStartProvisionalNavigation`: once the page is ready, later
      * loads are not tracked; otherwise `now` becomes the latest load. */
    method DidStartProvisionalNavigation(now: int)
      modifies this`isWebViewLoading, this`webViewLoadingAt
      ensures hasWebReady ==> isWebViewLoading == old(isWebViewLoading) && webViewLoadingAt == old(webViewLoadingAt)
      ensures !hasWebReady ==> isWebViewLoading && webViewLoadingAt == Some(now)
    {
      if hasWebReady {
        return;
      }
      isWebViewLoading := true;
      webViewLoadingAt := Some(now);
    }

    /** `didFailProvisionalNavigation` and `didFinish`: the load is over;
      * no error is shown. */
    method DidEndNavigation()
      modifies this`isWebViewLoading
      ensures !isWebViewLoading
    {
      isWebViewLoading := false;
    }

    /** `openSafariViewController`: the delegate's, when there is one. */
    method OpenSafariViewController(target: Uri)
      requires Valid()
      modifies this`effects
      ensures Valid()
      ensures effects == old(effects)
        + [if hasDelegate then DelegateOpenLink(target, false) else PresentSafari(target)]
    {
      if hasDelegate {
        EmitOther(DelegateOpenLink(target, false));
      } else {
        EmitOther(PresentSafari(target));
      }
    }

    /** `showCoverImageView`: an image not shown fades in; the completion
      * runs at once. */
    method ShowCoverImageView()
      requires Valid()
      modifies this`coverShown, this`effects
      ensures Valid()
      ensures coverShown == hasCover
      ensures effects == old(effects) + (if hasCover && !old(coverShown) then [ShowCover] else [])
    {
      if hasCover && !coverShown {
        coverShown := true;
        EmitOther(ShowCover);
      }
    }

    /** `hideCoverImageView`: a shown image fades out after what is left of
      * the first second; the completion runs at once. */
    method HideCoverImageView(now: int)
      requires Valid()
      modifies this`coverShown, this`effects
      ensures Valid() && !coverShown
      ensures effects == old(effects)
        + (if old(coverShown) then [HideCover(RemainingDelay(CoverMinimum, now - loadAt))] else [])
    {
      if coverShown {
        coverShown := false;
        EmitOther(HideCover(RemainingDelay(CoverMinimum, now - loadAt)));
      }
    }

    /** `decidePolicyFor`: a navigation without URL is cancelled; a tapped
      * web link opens in Safari and a tapped link of another scheme in the
      * application that can open it; other navigations proceed; a
      * `command` request is cancelled and run. */
    method DecidePolicyFor(request: Option<Uri>, linkActivated: bool, canOpen: bool, now: int)
      returns (allow: bool)
      requires Valid()
      modifies this
      ensures Valid()
      ensures allow <==> request.Some? && request.value.scheme != Some("command") && !linkActivated
      ensures request.Some? && request.value.scheme != Some("command") ==> (
        tasks == old(tasks) && callbacks == old(callbacks)
        && effects == old(effects)
          + (if !linkActivated then []
             else if IsWebScheme(request.value) then
               [if hasDelegate then DelegateOpenLink(request.value, false) else PresentSafari(request.value)]
             else if canOpen then [OpenUrl(request.value)]
             else []))
      ensures request.None? ==> unchanged(this)
    {
      if request.None? {
        return false;
      }
      var u := request.value;
      if u.scheme != Some("command") {
        if linkActivated {
          if IsWebScheme(u) {
            OpenSafariViewController(u);
          } else if canOpen {
            EmitOther(OpenUrl(u));
          }
          return false;
        }
        return true;
      }
      RunCommand(u, canOpen, now);
      return false;
    }

    // -------------------------------------------------------------------
    // Commands
    // -------------------------------------------------------------------

    /** `web.ready`: the page is ready; the cover hides and the answer
      * hands over the waiting launch URL once. */
    method CommandWebReady(id: string, now: int)
      requires Valid()
      modifies this`isWebViewLoading, this`hasWebReady, this`coverShown, this`launchUrl, this`callbacks,
        this`effects
      ensures Valid()
      ensures hasWebReady && !isWebViewLoading && !coverShown && launchUrl.None?
      ensures callbacks == old(callbacks) + [Callback(WebReady, id, LaunchArgs(old(launchUrl)))]
      ensures effects == old(effects)
        + (if old(coverShown) then [HideCover(RemainingDelay(CoverMinimum, now - loadAt))] else [])
    {
      isWebViewLoading := false;
      hasWebReady := true;
      HideCoverImageView(now);
      var args := LaunchArgs(launchUrl);
      launchUrl := None;
      callbacks := callbacks + [Callback(WebReady, id, args)];
    }

    /** `web.willreload`: the page is no longer ready; the cover shows and
      * the empty answer follows. */
    method CommandWebWillReload(id: string)
      requires Valid()
      modifies this`hasWebReady, this`coverShown, this`callbacks, this`effects
      ensures Valid()
      ensures !hasWebReady && coverShown == hasCover
      ensures callbacks == old(callbacks) + [Callback(WebWillReload, id, map[])]
      ensures effects == old(effects) + (if hasCover && !old(coverShown) then [ShowCover] else [])
    {
      hasWebReady := false;
      ShowCoverImageView();
      callbacks := callbacks + [Callback(WebWillReload, id, map[])];
    }

    /** `browse.app` / `browse.inapp` with a `url`: the delegate takes the
      * link when there is one; otherwise `browse.app` and links not on the
      * web open in another application, a shared-cookie link opens in the
      * SDK's web view screen and any other in Safari. */
    method CommandWebBrowse(tag: Tag, target: Uri, shared: bool, canOpen: bool)
      requires Valid() && (tag == BrowseApp || tag == BrowseInApp)
      modifies this`effects
      ensures Valid()
      ensures effects == old(effects)
        + (if hasDelegate then [DelegateOpenLink(target, shared)]
           else if tag == BrowseApp || !IsWebScheme(target) then (if canOpen then [OpenUrl(target)] else [])
           else if shared then [PresentWebViewController(target)]
           else [PresentSafari(target)])
    {
      if hasDelegate {
        EmitOther(DelegateOpenLink(target, shared));
      } else if tag == BrowseApp || !IsWebScheme(target) {
        if canOpen {
          EmitOther(OpenUrl(target));
        }
      } else if shared {
        EmitOther(PresentWebViewController(target));
      } else {
        OpenSafariViewController(target);
      }
    }

    /** The location and beacon commands. */
    method DispatchSensorCommand(tag: Tag, id: string)
      requires Valid()
      requires tag in {LocationStatus, LocationAuthorize, BeaconAuthorize, LocationOnce, LocationWatch,
                       LocationClearWatch, BeaconOnce, BeaconWatch, BeaconClearWatch}
      modifies this`tasks, this`locationOnceRequestIds, this`locationWatchRequestIds, this`beaconOnceRequestIds,
        this`beaconWatchRequestIds, this`isMeasuringLocation, this`isMonitoringBeacon, this`isRangingBeacon,
        this`effects
      ensures Valid()
      ensures tag == LocationStatus ==> tasks == old(tasks) + [AnswerStatus(tag, id)]
      ensures tag == LocationAuthorize || tag == BeaconAuthorize ==> tasks == old(tasks) + [AuthorizeOrAnswer(tag, id)]
      ensures tag == LocationOnce ==> (locationOnceRequestIds == old(locationOnceRequestIds) + [id]
        && tasks == old(tasks) + [StartLocation(true, false)])
      ensures tag == LocationWatch ==> (locationWatchRequestIds == old(locationWatchRequestIds) + [id]
        && tasks == old(tasks) + [StartLocation(false, false)])
      ensures tag == BeaconOnce ==> (beaconOnceRequestIds == old(beaconOnceRequestIds) + [id]
        && tasks == old(tasks) + [StartBeacon(false)])
      ensures tag == BeaconWatch ==> (beaconWatchRequestIds == old(beaconWatchRequestIds) + [id]
        && tasks == old(tasks) + [StartBeacon(false)])
      ensures tag == LocationClearWatch ==> (locationWatchRequestIds == [] && tasks == old(tasks)
        && (locationOnceRequestIds == [] ==> !isMeasuringLocation))
      ensures tag == BeaconClearWatch ==> (beaconWatchRequestIds == [] && tasks == old(tasks)
        && (beaconOnceRequestIds == [] ==> !isMonitoringBeacon && !isRangingBeacon))
    {
      if tag == LocationStatus {
        Enqueue(AnswerStatus(tag, id));
      } else if tag == LocationAuthorize || tag == BeaconAuthorize {
        Enqueue(AuthorizeOrAnswer(tag, id));
      } else if tag == LocationOnce {
        locationOnceRequestIds := locationOnceRequestIds + [id];
        Enqueue(StartLocation(true, false));
      } else if tag == LocationWatch {
        locationWatchRequestIds := locationWatchRequestIds + [id];
        Enqueue(StartLocation(false, false));
      } else if tag == LocationClearWatch {
        locationWatchRequestIds := [];
        StopLocationRequestIfNoRequest();
      } else if tag == BeaconOnce {
        beaconOnceRequestIds := beaconOnceRequestIds + [id];
        Enqueue(StartBeacon(false));
      } else if tag == BeaconWatch {
        beaconWatchRequestIds := beaconWatchRequestIds + [id];
        Enqueue(StartBeacon(false));
      } else {
        beaconWatchRequestIds := [];
        StopBeaconRequestIfNoRequest();
      }
    }

    /** `UIApplication.shared.open`: the link opens in another application. */
    method OpenOther(target: Uri)
      requires Valid()
      modifies this`effects
      ensures Valid()
      ensures effects == old(effects) + [OpenUrl(target)]
    {
      EmitOther(OpenUrl(target));
    }

    /** The command-specific part of `runCommand`. */
    method Dispatch(tag: Tag, id: string, query: map<string, string>, canOpen: bool, now: int)
      requires Valid()
      modifies this
      ensures Valid()
      ensures IosEchoes(tag, hasDelegate, query) && tag != AppInfo ==> callbacks == old(callbacks)
      ensures tag == AppInfo ==> callbacks == old(callbacks) + [Callback(AppInfo, id, AppInfoArgs(userId, secretKey, offsetBottom))]
    {
      if tag == AppInfo {
        callbacks := callbacks + [Callback(AppInfo, id, AppInfoArgs(userId, secretKey, offsetBottom))];
      } else if tag == WebReady {
        CommandWebReady(id, now);
      } else if tag == WebWillReload {
        CommandWebWillReload(id);
      } else if tag in {LocationStatus, LocationAuthorize, BeaconAuthorize, LocationOnce, LocationWatch,
                        LocationClearWatch, BeaconOnce, BeaconWatch, BeaconClearWatch} {
        DispatchSensorCommand(tag, id);
      } else if tag == BrowseApp || tag == BrowseInApp {
        if "url" in query {
          var shared := "sharedCookie" in query && query["sharedCookie"] == "true";
          CommandWebBrowse(tag, BrowseTarget(query["url"], originalUrl), shared, canOpen);
        }
      } else if tag == AppReview {
        if appStoreId.Some? {
          OpenOther(ReviewUri(appStoreId.value));
        }
      } else if tag == MapNavigate {
        if "url" in query {
          OpenOther(Parse(query["url"]));
        }
      }
    }

    /** `runCommand`: nothing happens when the host names none of the
      * nineteen tags or there is no `requestId`; otherwise the command
      * runs and ends with the empty echo exactly when `IosEchoes` says so. */
    method RunCommand(u: Uri, canOpen: bool, now: int)
      requires Valid()
      modifies this
      ensures Valid()
      ensures IosRequest(IosSdkTags, u).None? ==> unchanged(this)
      ensures var req := IosRequest(IosSdkTags, u);
        req.Some? && req.value.tag != AppInfo && IosEchoes(req.value.tag, hasDelegate, QueryDictionary(QueryItems(u))) ==>
          callbacks == old(callbacks) + [Callback(req.value.tag, req.value.requestId, map[])]
      ensures var req := IosRequest(IosSdkTags, u);
        req.Some? && req.value.tag == AppInfo ==>
          callbacks == old(callbacks) + [Callback(AppInfo, req.value.requestId, AppInfoArgs(userId, secretKey, offsetBottom)),
                                         Callback(AppInfo, req.value.requestId, map[])]
    {
      var req := IosRequest(IosSdkTags, u);
      if req.None? {
        return;
      }
      var query := DictionaryFromQuery(u);
      RunDecoded(req.value.tag, req.value.requestId, query, canOpen, now);
    }

    /** A decoded command runs, followed by its echo. */
    method RunDecoded(tag: Tag, id: string, query: map<string, string>, canOpen: bool, now: int)
      requires Valid()
      modifies this
      ensures Valid()
      ensures tag != AppInfo && IosEchoes(tag, hasDelegate, query) ==>
        callbacks == old(callbacks) + [Callback(tag, id, map[])]
      ensures tag == AppInfo ==>
        callbacks == old(callbacks) + [Callback(AppInfo, id, AppInfoArgs(userId, secretKey, offsetBottom)),
                                       Callback(AppInfo, id, map[])]
    {
      Dispatch(tag, id, query, canOpen, now);
      if IosEchoes(tag, hasDelegate, query) {
        callbacks := callbacks + [Callback(tag, id, map[])];
      }
    }

    /** `pushLaunchURL`: before `web.ready` the link waits for it; after,
      * it is pushed to the page as `app.link`, once whatever is presented
      * is dismissed. */
    method PushLaunchUrl(url: string, presenting: bool)
      requires Valid()
      modifies this`launchUrl, this`pushes, this`effects
      ensures Valid()
      ensures !hasWebReady ==> (launchUrl == Some(url) && pushes == old(pushes) && effects == old(effects))
      ensures hasWebReady ==> (launchUrl == old(launchUrl)
        && pushes == old(pushes) + [Push("app.link", map["url" := Text(url)])]
        && effects == old(effects) + (if presenting then [DismissPresented] else []))
    {
      if !hasWebReady {
        launchUrl := Some(url);
      } else {
        PushAppLink(url, presenting);
      }
    }

    /** The `web.ready` branch of `pushLaunchURL`: what is presented is
      * dismissed and the link is pushed as `app.link`. */
    method PushAppLink(url: string, presenting: bool)
      requires Valid()
      modifies this`pushes, this`effects
      ensures Valid()
      ensures pushes == old(pushes) + [Push("app.link", map["url" := Text(url)])]
      ensures effects == old(effects) + (if presenting then [DismissPresented] else [])
    {
      pushes := pushes + [Push("app.link", map["url" := Text(url)])];
      if presenting {
        EmitOther(DismissPresented);
      }
    }

    // -------------------------------------------------------------------
    // Queued continuations
    // -------------------------------------------------------------------

    /** Runs the oldest queued continuation; `status` is what its
      * authorization query returned. */
    method RunTask(status: ClAuthorizationStatus)
      requires Valid() && tasks != []
      modifies this
      ensures Valid()
      ensures old(tasks[0]).AnswerStatus? ==> (tasks == old(tasks[1..])
        && callbacks == old(callbacks) + [Callback(old(tasks[0]).tag, old(tasks[0]).requestId, StatusAnswer(status))])
      ensures old(tasks[0]).AnswerAuthorize? ==> (tasks == old(tasks[1..])
        && callbacks == old(callbacks)
          + [Callback(LocationAuthorize, old(tasks[0]).requestId, StatusAnswer(old(tasks[0]).status))])
      ensures old(tasks[0]).AuthorizeOrAnswer? ==> (tasks == old(tasks[1..])
        && (status == ClNotDetermined ==> (locationAuthorizeRequestId == Some(old(tasks[0]).requestId)
          && callbacks == old(callbacks) && effects == old(effects) + [RequestWhenInUseAuthorization]))
        && (status != ClNotDetermined ==> (locationAuthorizeRequestId == old(locationAuthorizeRequestId)
          && callbacks == old(callbacks) + [Callback(old(tasks[0]).tag, old(tasks[0]).requestId, StatusAnswer(status))])))
      ensures old(tasks[0]).ReportLocation? ==> (
        var t := old(tasks[0]);
        callbacks == old(callbacks)
          + Broadcast(LocationOnce, old(locationOnceRequestIds), LocationWatch, old(locationWatchRequestIds),
              LocationReportArgs(t.location, t.heading, t.hasError, status))
        && locationOnceRequestIds == []
        && locationWatchRequestIds == (if t.clearsWatchAfter then [] else old(locationWatchRequestIds))
        && isMeasuringLocation == (old(isMeasuringLocation) && locationWatchRequestIds != [])
        && tasks == old(tasks[1..]))
      ensures old(tasks[0]).ReportBeaconError? ==> (
        callbacks == old(callbacks)
          + Broadcast(BeaconOnce, old(beaconOnceRequestIds), BeaconWatch, old(beaconWatchRequestIds),
              BeaconErrorArgs(status))
        && beaconOnceRequestIds == [] && beaconWatchRequestIds == [] && tasks == old(tasks[1..]))
      ensures StartsSession(old(tasks[0])) && status == ClNotDetermined ==> (tasks == old(tasks[1..])
        && effects == old(effects) + [RequestWhenInUseAuthorization])
      ensures StartsLocation(old(tasks[0])) && IsClAuthorized(status) ==> (tasks == old(tasks[1..])
        && isMeasuringLocation
        && effects == old(effects) + (if !old(isMeasuringLocation) then [StartUpdatingLocation]
                                      else if old(StartIsOnce(tasks[0])) then [RequestLocation] else []))
      ensures StartsLocation(old(tasks[0])) && Refused(status, StartIsSilent(old(tasks[0]))) ==>
        tasks == old(tasks[1..]) + [ReportLocation(None, None, false, false)]
      ensures old(tasks[0]).StartBeacon? && IsClAuthorized(status) ==> (tasks == old(tasks[1..])
        && isMonitoringBeacon == (useBeacon || old(isMonitoringBeacon)))
      ensures old(tasks[0]).StartBeacon? && Refused(status, old(tasks[0]).isSilent) ==>
        tasks == old(tasks[1..]) + [ReportBeaconError]
      ensures StartsSession(old(tasks[0])) && status == ClDenied && !StartIsSilent(old(tasks[0])) ==> (
        tasks == old(tasks[1..]) && deniedAlertWaiters.Some?
        && deniedAlertWaiters.value[|deniedAlertWaiters.value| - 1]
          == (if old(tasks[0]).StartBeacon? then BeaconWaiter else LocationWaiter))
    {
      var t := tasks[0];
      tasks := tasks[1..];
      if t.AnswerStatus? || t.AnswerAuthorize? || t.AuthorizeOrAnswer? {
        RunAnswerTask(t, status);
      } else if StartsSession(t) {
        RunStartTask(t, status);
      } else if t.ReportLocation? {
        LocationCommandCallback(t.location, t.heading, t.hasError, t.clearsWatchAfter, status);
      } else {
        BeaconErrorCallback(status);
      }
    }

    /** The tasks that ask for a location session. */
    predicate StartsLocation(t: PendingTask) {
      t.StartLocation? || t.RestartLocationOnGrant?
    }

    /** The tasks that ask for a location or beacon session. */
    predicate StartsSession(t: PendingTask) {
      StartsLocation(t) || t.StartBeacon?
    }

    /** Whether a start task runs as a once request: a restart after an
      * authorization change does exactly when some watch id is pending,
      * as written. */
    function StartIsOnce(t: PendingTask): bool
      reads this`locationWatchRequestIds
    {
      if t.StartLocation? then t.isOnce else locationWatchRequestIds != []
    }

    /** Whether a start task runs silently; the restart always does. */
    function StartIsSilent(t: PendingTask): bool {
      if t.StartLocation? then t.isSilent else if t.StartBeacon? then t.isSilent else true
    }

    /** A status a start request answers at once without a session. */
    predicate Refused(status: ClAuthorizationStatus, isSilent: bool) {
      status == ClRestricted || status == ClUnknown || (status == ClDenied && isSilent)
    }

    /** A start task runs `startLocationRequest` or `startBeaconRequest`. */
    method RunStartTask(t: PendingTask, status: ClAuthorizationStatus)
      requires Valid() && StartsSession(t)
      modifies this`effects, this`tasks, this`isAlertPresentedForLocationRestricted, this`deniedAlertWaiters,
        this`isMeasuringLocation, this`locationCallbackStatus, this`lastHeading, this`isMonitoringBeacon
      ensures Valid()
      ensures status == ClNotDetermined ==> (tasks == old(tasks) && effects == old(effects) + [RequestWhenInUseAuthorization])
      ensures StartsLocation(t) && IsClAuthorized(status) ==> (tasks == old(tasks) && isMeasuringLocation
        && effects == old(effects) + (if !old(isMeasuringLocation) then [StartUpdatingLocation]
                                      else if StartIsOnce(t) then [RequestLocation] else []))
      ensures StartsLocation(t) && Refused(status, StartIsSilent(t)) ==>
        tasks == old(tasks) + [ReportLocation(None, None, false, false)]
      ensures t.StartBeacon? && IsClAuthorized(status) ==> (tasks == old(tasks)
        && isMonitoringBeacon == (useBeacon || old(isMonitoringBeacon)))
      ensures t.StartBeacon? && Refused(status, t.isSilent) ==> tasks == old(tasks) + [ReportBeaconError]
      ensures status == ClDenied && !StartIsSilent(t) ==> (tasks == old(tasks) && deniedAlertWaiters.Some?
        && deniedAlertWaiters.value[|deniedAlertWaiters.value| - 1] == (if t.StartBeacon? then BeaconWaiter else LocationWaiter))
    {
      if t.StartBeacon? {
        StartBeaconRequest(t.isSilent, status);
      } else {
        StartLocationRequest(StartIsOnce(t), StartIsSilent(t), status);
      }
    }

    /** The continuations that answer a status: the query's status for
      * `locationStatus`, the captured one after an authorization change,
      * and for an authorize command either the prompt (the id waits for
      * the user's choice) or the current status. */
    method RunAnswerTask(t: PendingTask, status: ClAuthorizationStatus)
      requires Valid() && (t.AnswerStatus? || t.AnswerAuthorize? || t.AuthorizeOrAnswer?)
      modifies this`callbacks, this`locationAuthorizeRequestId, this`effects
      ensures Valid()
      ensures t.AnswerStatus? ==> (callbacks == old(callbacks) + [Callback(t.tag, t.requestId, StatusAnswer(status))]
        && effects == old(effects) && locationAuthorizeRequestId == old(locationAuthorizeRequestId))
      ensures t.AnswerAuthorize? ==> (effects == old(effects)
        && callbacks == old(callbacks) + [Callback(LocationAuthorize, t.requestId, StatusAnswer(t.status))]
        && locationAuthorizeRequestId == old(locationAuthorizeRequestId))
      ensures t.AuthorizeOrAnswer? && status == ClNotDetermined ==> (locationAuthorizeRequestId == Some(t.requestId)
        && callbacks == old(callbacks) && effects == old(effects) + [RequestWhenInUseAuthorization])
      ensures t.AuthorizeOrAnswer? && status != ClNotDetermined ==> (effects == old(effects)
        && locationAuthorizeRequestId == old(locationAuthorizeRequestId)
        && callbacks == old(callbacks) + [Callback(t.tag, t.requestId, StatusAnswer(status))])
    {
      if t.AnswerStatus? {
        callbacks := callbacks + [Callback(t.tag, t.requestId, StatusAnswer(status))];
      } else if t.AnswerAuthorize? {
        callbacks := callbacks + [Callback(LocationAuthorize, t.requestId, StatusAnswer(t.status))];
      } else if status == ClNotDetermined {
        locationAuthorizeRequestId := Some(t.requestId);
        EmitOther(RequestWhenInUseAuthorization);
      } else {
        callbacks := callbacks + [Callback(t.tag, t.requestId, StatusAnswer(status))];
      }
    }

    // -------------------------------------------------------------------
    // Alerts
    // -------------------------------------------------------------------

    /** `presentAlertForLocationDenied`: the first caller puts the alert on
      * screen; while it is there, later callers wait for the same answer. */
    method AwaitDeniedAlert(w: Waiter)
      requires Valid()
      modifies this`deniedAlertWaiters, this`effects
      ensures Valid()
      ensures old(deniedAlertWaiters).Some? ==> (deniedAlertWaiters == Some(old(deniedAlertWaiters).value + [w])
        && effects == old(effects))
      ensures old(deniedAlertWaiters).None? ==> (deniedAlertWaiters == Some([w])
        && effects == old(effects) + [PresentDeniedAlert])
    {
      if deniedAlertWaiters.Some? {
        deniedAlertWaiters := Some(deniedAlertWaiters.value + [w]);
      } else {
        deniedAlertWaiters := Some([w]);
        EmitOther(PresentDeniedAlert);
      }
    }

    /** The user answers the denied alert: OK opens the settings; the slot
      * empties; on "cancel" every waiting caller goes on to its error
      * answer. */
    method OnDeniedAlertAnswered(ok: bool)
      requires Valid() && deniedAlertWaiters.Some?
      modifies this`deniedAlertWaiters, this`effects, this`tasks
      ensures Valid() && deniedAlertWaiters.None?
      ensures effects == old(effects) + (if ok then [OpenSettings] else [])
      ensures tasks == old(tasks) + (if ok then [] else DeclinedFollowUps(old(deniedAlertWaiters).value))
    {
      if ok {
        EmitOther(OpenSettings);
      }
      var waiters := deniedAlertWaiters.value;
      deniedAlertWaiters := None;
      if !ok {
        tasks := tasks + DeclinedFollowUps(waiters);
      }
    }

    /** `presentAlertForLocationRestricted`: at most one on screen. */
    method PresentAlertForLocationRestricted()
      requires Valid()
      modifies this`isAlertPresentedForLocationRestricted, this`effects
      ensures Valid() && isAlertPresentedForLocationRestricted
      ensures effects == old(effects) + (if old(isAlertPresentedForLocationRestricted) then [] else [PresentRestrictedAlert])
    {
      if isAlertPresentedForLocationRestricted {
        return;
      }
      isAlertPresentedForLocationRestricted := true;
      EmitOther(PresentRestrictedAlert);
    }

    /** The OK button of the restricted alert. */
    method OnRestrictedAlertClosed()
      modifies this`isAlertPresentedForLocationRestricted
      ensures !isAlertPresentedForLocationRestricted
    {
      isAlertPresentedForLocationRestricted := false;
    }

    // -------------------------------------------------------------------
    // Location
    // -------------------------------------------------------------------

    /** `startLocationRequest`, after its status query: an undetermined
      * status only prompts; a restricted or unknown one answers at once
      * without position (behind the restricted alert unless silent); a
      * denied one answers at once when silent and otherwise after the user
      * declines the alert; an authorized one never starts a second session,
      * a once request then only asks for one more position, and a new
      * session starts its callback gate afresh. */
    method StartLocationRequest(isOnce: bool, isSilent: bool, status: ClAuthorizationStatus)
      requires Valid()
      modifies this`effects, this`tasks, this`isAlertPresentedForLocationRestricted, this`deniedAlertWaiters,
        this`isMeasuringLocation, this`locationCallbackStatus, this`lastHeading
      ensures Valid()
      ensures status == ClNotDetermined ==> (effects == old(effects) + [RequestWhenInUseAuthorization]
        && tasks == old(tasks) && deniedAlertWaiters == old(deniedAlertWaiters)
        && isMeasuringLocation == old(isMeasuringLocation))
      ensures status == ClRestricted || status == ClUnknown || (status == ClDenied && isSilent) ==> (
        tasks == old(tasks) + [ReportLocation(None, None, false, false)]
        && isMeasuringLocation == old(isMeasuringLocation) && deniedAlertWaiters == old(deniedAlertWaiters))
      ensures status == ClDenied && !isSilent ==> (tasks == old(tasks)
        && isMeasuringLocation == old(isMeasuringLocation)
        && deniedAlertWaiters.Some? && deniedAlertWaiters.value[|deniedAlertWaiters.value| - 1] == LocationWaiter)
      ensures IsClAuthorized(status) && old(isMeasuringLocation) ==> (isMeasuringLocation && tasks == old(tasks)
        && locationCallbackStatus == old(locationCallbackStatus) && lastHeading == old(lastHeading)
        && effects == old(effects) + (if isOnce then [RequestLocation] else []))
      ensures IsClAuthorized(status) && !old(isMeasuringLocation) ==> (isMeasuringLocation && tasks == old(tasks)
        && locationCallbackStatus == 0 && lastHeading.None?
        && effects == old(effects) + [StartUpdatingLocation])
    {
      if IsClAuthorized(status) {
        StartLocationSession(isOnce);
      } else {
        StartLocationRequestUnauthorized(isSilent, status);
      }
    }

    /** The branches of `startLocationRequest` without authorization: a
      * prompt, an alert or an empty answer; the session is left alone. */
    method StartLocationRequestUnauthorized(isSilent: bool, status: ClAuthorizationStatus)
      requires Valid() && !IsClAuthorized(status)
      modifies this`effects, this`tasks, this`isAlertPresentedForLocationRestricted, this`deniedAlertWaiters
      ensures Valid()
      ensures status == ClNotDetermined ==> (effects == old(effects) + [RequestWhenInUseAuthorization]
        && tasks == old(tasks) && deniedAlertWaiters == old(deniedAlertWaiters))
      ensures status == ClRestricted || status == ClUnknown || (status == ClDenied && isSilent) ==> (
        tasks == old(tasks) + [ReportLocation(None, None, false, false)]
        && deniedAlertWaiters == old(deniedAlertWaiters))
      ensures status == ClDenied && !isSilent ==> (tasks == old(tasks)
        && deniedAlertWaiters.Some? && deniedAlertWaiters.value[|deniedAlertWaiters.value| - 1] == LocationWaiter)
    {
      if status == ClNotDetermined {
        EmitOther(RequestWhenInUseAuthorization);
      } else if status == ClRestricted {
        if !isSilent {
          PresentAlertForLocationRestricted();
        }
        Enqueue(ReportLocation(None, None, false, false));
      } else if status == ClDenied {
        if !isSilent {
          AwaitDeniedAlert(LocationWaiter);
        } else {
          Enqueue(ReportLocation(None, None, false, false));
        }
      } else {
        Enqueue(ReportLocation(None, None, false, false));
      }
    }

    /** The authorized branch of `startLocationRequest`. */
    method StartLocationSession(isOnce: bool)
      requires Valid()
      modifies this`effects, this`isMeasuringLocation, this`locationCallbackStatus, this`lastHeading
      ensures Valid() && isMeasuringLocation
      ensures old(isMeasuringLocation) ==> (locationCallbackStatus == old(locationCallbackStatus)
        && lastHeading == old(lastHeading) && effects == old(effects) + (if isOnce then [RequestLocation] else []))
      ensures !old(isMeasuringLocation) ==> (locationCallbackStatus == 0 && lastHeading.None?
        && effects == old(effects) + [StartUpdatingLocation])
    {
      if isMeasuringLocation {
        if isOnce {
          EmitOther(RequestLocation);
        }
        return;
      }
      locationCallbackStatus, lastHeading := 0, None;
      SwitchLocation(true);
    }

    /** `stopLocationRequest`: idempotent; no session afterwards. */
    method StopLocationRequest()
      requires Valid()
      modifies this`isMeasuringLocation, this`effects
      ensures Valid() && !isMeasuringLocation
      ensures effects == old(effects) + (if old(isMeasuringLocation) then [StopUpdatingLocation] else [])
    {
      if !isMeasuringLocation {
        return;
      }
      SwitchLocation(false);
    }

    /** `stopLocationRequestIfNoRequest`. */
    method StopLocationRequestIfNoRequest()
      requires Valid()
      modifies this`isMeasuringLocation, this`effects
      ensures Valid()
      ensures locationOnceRequestIds == [] && locationWatchRequestIds == [] ==> (!isMeasuringLocation
        && effects == old(effects) + (if old(isMeasuringLocation) then [StopUpdatingLocation] else []))
      ensures locationOnceRequestIds != [] || locationWatchRequestIds != [] ==> (
        isMeasuringLocation == old(isMeasuringLocation) && effects == old(effects))
    {
      if locationOnceRequestIds == [] && locationWatchRequestIds == [] {
        StopLocationRequest();
      }
    }

    /** The body of `locationCommandCallback`'s task: the same answer to
      * every once id and then every watch id; the once ids are done (and,
      * where `clearsWatchAfter`, the watch ids too), and the session stops
      * when no id is left. */
    method LocationCommandCallback(location: Option<Coordinate>, heading: Option<real>, hasError: bool,
                                   clearsWatchAfter: bool, status: ClAuthorizationStatus)
      requires Valid()
      modifies this`callbacks, this`locationOnceRequestIds, this`locationWatchRequestIds, this`isMeasuringLocation,
        this`effects
      ensures Valid()
      ensures callbacks == old(callbacks)
        + Broadcast(LocationOnce, old(locationOnceRequestIds), LocationWatch, old(locationWatchRequestIds),
            LocationReportArgs(location, heading, hasError, status))
      ensures locationOnceRequestIds == []
      ensures locationWatchRequestIds == (if clearsWatchAfter then [] else old(locationWatchRequestIds))
      ensures isMeasuringLocation == (old(isMeasuringLocation) && locationWatchRequestIds != [])
      ensures effects == old(effects)
        + (if old(isMeasuringLocation) && locationWatchRequestIds == [] then [StopUpdatingLocation] else [])
    {
      var args := LocationReportArgs(location, heading, hasError, status);
      var sent := BroadcastCallbacks(LocationOnce, locationOnceRequestIds, LocationWatch, locationWatchRequestIds,
                                     args);
      callbacks := callbacks + sent;
      if clearsWatchAfter {
        locationWatchRequestIds := [];
      }
      locationOnceRequestIds := [];
      StopLocationRequestIfNoRequest();
    }

    /** `didUpdateLocations`: the first position of a session is answered
      * after a delay (so that a heading can arrive), positions during the
      * delay are dropped, and later ones are answered with the manager's
      * heading or the last one seen. */
    method DidUpdateLocations(location: Option<Coordinate>, heading: Option<real>)
      requires Valid()
      modifies this`locationCallbackStatus, this`pendingFirstCallbacks, this`tasks
      ensures Valid()
      ensures old(locationCallbackStatus) == 0 ==> (locationCallbackStatus == 1
        && pendingFirstCallbacks == old(pendingFirstCallbacks) + 1 && tasks == old(tasks))
      ensures old(locationCallbackStatus) == 1 ==> (locationCallbackStatus == 1
        && pendingFirstCallbacks == old(pendingFirstCallbacks) && tasks == old(tasks))
      ensures old(locationCallbackStatus) == 2 ==> (locationCallbackStatus == 2
        && pendingFirstCallbacks == old(pendingFirstCallbacks)
        && tasks == old(tasks) + [ReportLocation(location, if heading.Some? then heading else lastHeading, false, false)])
    {
      if locationCallbackStatus == 0 {
        locationCallbackStatus := 1;
        pendingFirstCallbacks := pendingFirstCallbacks + 1;
      } else if locationCallbackStatus == 2 {
        Enqueue(ReportLocation(location, if heading.Some? then heading else lastHeading, false, false));
      }
    }

    /** The delayed first answer: answered with the manager's position and
      * heading (or the last heading seen); the gate opens. */
    method FirstLocationCallbackFires(location: Option<Coordinate>, heading: Option<real>)
      requires Valid() && pendingFirstCallbacks > 0
      modifies this`locationCallbackStatus, this`pendingFirstCallbacks, this`tasks
      ensures Valid()
      ensures pendingFirstCallbacks == old(pendingFirstCallbacks) - 1 && locationCallbackStatus == 2
      ensures tasks == old(tasks) + [ReportLocation(location, if heading.Some? then heading else lastHeading, false, false)]
    {
      pendingFirstCallbacks := pendingFirstCallbacks - 1;
      Enqueue(ReportLocation(location, if heading.Some? then heading else lastHeading, false, false));
      locationCallbackStatus := 2;
    }

    /** `didUpdateHeading`: the heading is kept; it is answered only once
      * the gate is open. */
    method DidUpdateHeading(location: Option<Coordinate>, heading: real)
      requires Valid()
      modifies this`lastHeading, this`tasks
      ensures Valid()
      ensures lastHeading == Some(heading)
      ensures tasks == old(tasks)
        + (if locationCallbackStatus == 2 then [ReportLocation(location, Some(heading), false, false)] else [])
    {
      lastHeading := Some(heading);
      if locationCallbackStatus == 2 {
        Enqueue(ReportLocation(location, Some(heading), false, false));
      }
    }

    /** `didFailWithError` as written: the session stops, an error answer is
      * queued and the watch ids are dropped at once, before that answer
      * runs. */
    method DidFailWithError()
      requires Valid()
      modifies this`isMeasuringLocation, this`effects, this`tasks, this`locationWatchRequestIds
      ensures Valid() && !isMeasuringLocation && locationWatchRequestIds == []
      ensures effects == old(effects) + (if old(isMeasuringLocation) then [StopUpdatingLocation] else [])
      ensures tasks == old(tasks) + [ReportLocation(None, None, true, false)]
    {
      StopLocationRequest();
      Enqueue(ReportLocation(None, None, true, false));
      locationWatchRequestIds := [];
    }

    /** `didFailWithError` as evidently intended: the watch ids are dropped
      * only after the error answer has reached them. */
    method DidFailWithErrorCorrected()
      requires Valid()
      modifies this`isMeasuringLocation, this`effects, this`tasks
      ensures Valid() && !isMeasuringLocation
      ensures effects == old(effects) + (if old(isMeasuringLocation) then [StopUpdatingLocation] else [])
      ensures tasks == old(tasks) + [ReportLocation(None, None, true, true)]
    {
      StopLocationRequest();
      Enqueue(ReportLocation(None, None, true, true));
    }

    /** A provider failure with nothing else queued, as written: once the
      * error answer runs, no watch id has heard it. */
    method FailureReportAsWritten(status: ClAuthorizationStatus)
      requires Valid() && tasks == []
      modifies this
      ensures Valid()
      ensures callbacks == old(callbacks)
        + FanOut(LocationOnce, old(locationOnceRequestIds), LocationReportArgs(None, None, true, status))
      ensures forall i :: |old(callbacks)| <= i < |callbacks| ==> callbacks[i].tag != LocationWatch
      ensures locationOnceRequestIds == [] && locationWatchRequestIds == [] && !isMeasuringLocation
    {
      DidFailWithError();
      RunTask(status);
    }

    /** A provider failure with nothing else queued, as intended: every
      * once id and then every watch id hears the error, and both lists end
      * empty. */
    method FailureReportCorrected(status: ClAuthorizationStatus)
      requires Valid() && tasks == []
      modifies this
      ensures Valid()
      ensures callbacks == old(callbacks)
        + Broadcast(LocationOnce, old(locationOnceRequestIds), LocationWatch, old(locationWatchRequestIds),
            LocationReportArgs(None, None, true, status))
      ensures Recipients(callbacks[|old(callbacks)|..]) == old(locationOnceRequestIds) + old(locationWatchRequestIds)
      ensures locationOnceRequestIds == [] && locationWatchRequestIds == [] && !isMeasuringLocation
    {
      DidFailWithErrorCorrected();
      RunTask(status);
      assert callbacks[|old(callbacks)|..]
        == Broadcast(LocationOnce, old(locationOnceRequestIds), LocationWatch, old(locationWatchRequestIds),
             LocationReportArgs(None, None, true, status));
    }

    /** `didChangeAuthorization`, location part: with ids pending, an
      * authorized status queues the silent restart, which runs as a once
      * request exactly when some watch id is pending by then, as written;
      * a refusal stops
      * the session, queues the answer without position and drops the watch
      * ids at once. */
    method AuthorizationChangedForLocation(status: ClAuthorizationStatus)
      requires Valid()
      modifies this`isMeasuringLocation, this`effects, this`tasks, this`locationWatchRequestIds
      ensures Valid()
      ensures (locationOnceRequestIds == [] && old(locationWatchRequestIds) == []) || status == ClNotDetermined ==> (
        isMeasuringLocation == old(isMeasuringLocation) && effects == old(effects) && tasks == old(tasks)
        && locationWatchRequestIds == old(locationWatchRequestIds))
      ensures (locationOnceRequestIds != [] || old(locationWatchRequestIds) != []) && IsClAuthorized(status) ==> (
        tasks == old(tasks) + [RestartLocationOnGrant]
        && isMeasuringLocation == old(isMeasuringLocation) && effects == old(effects)
        && locationWatchRequestIds == old(locationWatchRequestIds))
      ensures ((locationOnceRequestIds != [] || old(locationWatchRequestIds) != [])
        && status != ClNotDetermined && !IsClAuthorized(status)) ==> (
        !isMeasuringLocation && locationWatchRequestIds == []
        && tasks == old(tasks) + [ReportLocation(None, None, false, false)]
        && effects == old(effects) + (if old(isMeasuringLocation) then [StopUpdatingLocation] else []))
    {
      if locationOnceRequestIds != [] || locationWatchRequestIds != [] {
        if IsClAuthorized(status) {
          Enqueue(RestartLocationOnGrant);
        } else if status != ClNotDetermined {
          StopLocationRequest();
          Enqueue(ReportLocation(None, None, false, false));
          locationWatchRequestIds := [];
        }
      }
    }

    /** The location part of `didChangeAuthorization` as evidently
      * intended: on a refusal the watch ids are dropped only after the
      * answer without position has reached them. */
    method AuthorizationChangedForLocationCorrected(status: ClAuthorizationStatus)
      requires Valid()
      modifies this`isMeasuringLocation, this`effects, this`tasks
      ensures Valid()
      ensures (locationOnceRequestIds == [] && locationWatchRequestIds == []) || status == ClNotDetermined ==> (
        isMeasuringLocation == old(isMeasuringLocation) && effects == old(effects) && tasks == old(tasks))
      ensures (locationOnceRequestIds != [] || locationWatchRequestIds != []) && IsClAuthorized(status) ==> (
        tasks == old(tasks) + [RestartLocationOnGrant]
        && isMeasuringLocation == old(isMeasuringLocation) && effects == old(effects))
      ensures ((locationOnceRequestIds != [] || locationWatchRequestIds != [])
        && status != ClNotDetermined && !IsClAuthorized(status)) ==> (
        !isMeasuringLocation
        && tasks == old(tasks) + [ReportLocation(None, None, false, true)]
        && effects == old(effects) + (if old(isMeasuringLocation) then [StopUpdatingLocation] else []))
    {
      if locationOnceRequestIds != [] || locationWatchRequestIds != [] {
        if IsClAuthorized(status) {
          Enqueue(RestartLocationOnGrant);
        } else if status != ClNotDetermined {
          StopLocationRequest();
          Enqueue(ReportLocation(None, None, false, true));
        }
      }
    }

    /** A refusal with nothing else queued, as written: once the answer
      * without position runs, no watch id has heard it. */
    method RefusalReportAsWritten(status: ClAuthorizationStatus)
      requires Valid() && tasks == [] && status != ClNotDetermined && !IsClAuthorized(status)
      modifies this
      ensures Valid()
      ensures callbacks == old(callbacks)
        + FanOut(LocationOnce, old(locationOnceRequestIds), LocationReportArgs(None, None, false, status))
      ensures forall i :: |old(callbacks)| <= i < |callbacks| ==> callbacks[i].tag != LocationWatch
      ensures old(locationOnceRequestIds) != [] || old(locationWatchRequestIds) != [] ==> (
        locationOnceRequestIds == [] && locationWatchRequestIds == [] && !isMeasuringLocation)
    {
      AuthorizationChangedForLocation(status);
      if tasks != [] {
        RunTask(status);
      }
    }

    /** A refusal with nothing else queued, as intended: every once id and
      * then every watch id hears the refusal, and both lists end empty. */
    method RefusalReportCorrected(status: ClAuthorizationStatus)
      requires Valid() && tasks == [] && status != ClNotDetermined && !IsClAuthorized(status)
      modifies this
      ensures Valid()
      ensures callbacks == old(callbacks)
        + Broadcast(LocationOnce, old(locationOnceRequestIds), LocationWatch, old(locationWatchRequestIds),
            LocationReportArgs(None, None, false, status))
      ensures Recipients(callbacks[|old(callbacks)|..]) == old(locationOnceRequestIds) + old(locationWatchRequestIds)
      ensures old(locationOnceRequestIds) != [] || old(locationWatchRequestIds) != [] ==> (
        locationOnceRequestIds == [] && locationWatchRequestIds == [] && !isMeasuringLocation)
    {
      AuthorizationChangedForLocationCorrected(status);
      if tasks != [] {
        RunTask(status);
      }
      assert callbacks[|old(callbacks)|..]
        == Broadcast(LocationOnce, old(locationOnceRequestIds), LocationWatch, old(locationWatchRequestIds),
             LocationReportArgs(None, None, false, status));
    }

    /** `didChangeAuthorization`: the location part, the beacon part, and
      * then, for any status but undetermined, the pending authorize id is
      * answered (with the `location.authorize` tag) and forgotten. */
    method DidChangeAuthorization(status: ClAuthorizationStatus)
      requires Valid()
      modifies this`isMeasuringLocation, this`effects, this`tasks, this`locationWatchRequestIds,
        this`isMonitoringBeacon, this`isRangingBeacon, this`locationAuthorizeRequestId
      ensures Valid()
      ensures status == ClNotDetermined ==> locationAuthorizeRequestId == old(locationAuthorizeRequestId)
      ensures status != ClNotDetermined ==> locationAuthorizeRequestId.None?
      ensures status != ClNotDetermined && old(locationAuthorizeRequestId).Some? ==>
        |tasks| > 0 && tasks[|tasks| - 1] == AnswerAuthorize(status, old(locationAuthorizeRequestId).value)
    {
      AuthorizationChangedForLocation(status);
      AuthorizationChangedForBeacons(status);
      if status != ClNotDetermined {
        AnswerLocationAuthorize(status);
      }
    }

    /** The pending `location.authorize` id, if any, is answered with the
      * new status and forgotten. */
    method AnswerLocationAuthorize(status: ClAuthorizationStatus)
      modifies this`tasks, this`locationAuthorizeRequestId
      ensures locationAuthorizeRequestId.None?
      ensures tasks == old(tasks) + (if old(locationAuthorizeRequestId).Some?
        then [AnswerAuthorize(status, old(locationAuthorizeRequestId).value)] else [])
    {
      if locationAuthorizeRequestId.Some? {
        tasks := tasks + [AnswerAuthorize(status, locationAuthorizeRequestId.value)];
        locationAuthorizeRequestId := None;
      }
    }

    // -------------------------------------------------------------------
    // Beacons
    // -------------------------------------------------------------------

    /** `startMonitoringBeaconIfNeeded`: idempotent, nothing without beacons. */
    method StartMonitoringBeaconIfNeeded()
      requires Valid()
      modifies this`isMonitoringBeacon, this`effects
      ensures Valid()
      ensures isMonitoringBeacon == (useBeacon || old(isMonitoringBeacon))
      ensures effects == old(effects) + (if useBeacon && !old(isMonitoringBeacon) then [StartMonitoringBeacons] else [])
    {
      if !useBeacon {
        return;
      }
      if !isMonitoringBeacon {
        SwitchMonitoring(true);
      }
    }

    /** `stopMonitoringBeaconIfNeeded`: idempotent. */
    method StopMonitoringBeaconIfNeeded()
      requires Valid()
      modifies this`isMonitoringBeacon, this`effects
      ensures Valid() && !isMonitoringBeacon
      ensures effects == old(effects) + (if old(isMonitoringBeacon) then [StopMonitoringBeacons] else [])
    {
      if !useBeacon {
        return;
      }
      if isMonitoringBeacon {
        SwitchMonitoring(false);
      }
    }

    /** `startRangingBeaconsIfNeeded` (reached only with beacons). */
    method StartRangingBeaconsIfNeeded()
      requires Valid() && useBeacon
      modifies this`isRangingBeacon, this`effects
      ensures Valid() && isRangingBeacon
      ensures effects == old(effects) + (if old(isRangingBeacon) then [] else [StartRangingBeacons])
    {
      if !isRangingBeacon {
        SwitchRanging(true);
      }
    }

    /** `stopRangingBeaconsIfNeeded`: idempotent. */
    method StopRangingBeaconsIfNeeded()
      requires Valid()
      modifies this`isRangingBeacon, this`effects
      ensures Valid() && !isRangingBeacon
      ensures effects == old(effects) + (if old(isRangingBeacon) then [StopRangingBeacons] else [])
    {
      if !useBeacon {
        return;
      }
      if isRangingBeacon {
        SwitchRanging(false);
      }
    }

    /** Both halves of the beacon session stop. */
    method StopBeaconSession()
      requires Valid()
      modifies this`isRangingBeacon, this`isMonitoringBeacon, this`effects
      ensures Valid() && !isRangingBeacon && !isMonitoringBeacon
      ensures effects == old(effects) + (if old(isRangingBeacon) then [StopRangingBeacons] else [])
        + (if old(isMonitoringBeacon) then [StopMonitoringBeacons] else [])
    {
      StopRangingBeaconsIfNeeded();
      StopMonitoringBeaconIfNeeded();
    }

    /** `stopBeaconRequestIfNoRequest`. */
    method StopBeaconRequestIfNoRequest()
      requires Valid()
      modifies this`isRangingBeacon, this`isMonitoringBeacon, this`effects
      ensures Valid()
      ensures beaconOnceRequestIds == [] && beaconWatchRequestIds == [] ==> (!isRangingBeacon && !isMonitoringBeacon
        && effects == old(effects) + (if old(isRangingBeacon) then [StopRangingBeacons] else [])
          + (if old(isMonitoringBeacon) then [StopMonitoringBeacons] else []))
      ensures beaconOnceRequestIds != [] || beaconWatchRequestIds != [] ==> (effects == old(effects)
        && isRangingBeacon == old(isRangingBeacon) && isMonitoringBeacon == old(isMonitoringBeacon))
    {
      if beaconOnceRequestIds == [] && beaconWatchRequestIds == [] {
        StopBeaconSession();
      }
    }

    /** `startBeaconRequest`, after its status query: as for location,
      * except that every refusal is an error answer and an authorized
      * status starts monitoring. */
    method StartBeaconRequest(isSilent: bool, status: ClAuthorizationStatus)
      requires Valid()
      modifies this`effects, this`tasks, this`isAlertPresentedForLocationRestricted, this`deniedAlertWaiters,
        this`isMonitoringBeacon
      ensures Valid()
      ensures status == ClNotDetermined ==> (effects == old(effects) + [RequestWhenInUseAuthorization]
        && tasks == old(tasks) && isMonitoringBeacon == old(isMonitoringBeacon))
      ensures status == ClRestricted || status == ClUnknown || (status == ClDenied && isSilent) ==> (
        tasks == old(tasks) + [ReportBeaconError] && isMonitoringBeacon == old(isMonitoringBeacon))
      ensures status == ClDenied && !isSilent ==> (tasks == old(tasks) && isMonitoringBeacon == old(isMonitoringBeacon)
        && deniedAlertWaiters.Some? && deniedAlertWaiters.value[|deniedAlertWaiters.value| - 1] == BeaconWaiter)
      ensures IsClAuthorized(status) ==> (tasks == old(tasks) && isMonitoringBeacon == (useBeacon || old(isMonitoringBeacon))
        && effects == old(effects) + (if useBeacon && !old(isMonitoringBeacon) then [StartMonitoringBeacons] else []))
    {
      if IsClAuthorized(status) {
        StartMonitoringBeaconIfNeeded();
      } else {
        StartBeaconRequestUnauthorized(isSilent, status);
      }
    }

    /** The branches of `startBeaconRequest` without authorization: a
      * prompt, an alert or an error answer; monitoring is left alone. */
    method StartBeaconRequestUnauthorized(isSilent: bool, status: ClAuthorizationStatus)
      requires Valid() && !IsClAuthorized(status)
      modifies this`effects, this`tasks, this`isAlertPresentedForLocationRestricted, this`deniedAlertWaiters
      ensures Valid()
      ensures status == ClNotDetermined ==> (effects == old(effects) + [RequestWhenInUseAuthorization]
        && tasks == old(tasks))
      ensures status == ClRestricted || status == ClUnknown || (status == ClDenied && isSilent) ==>
        tasks == old(tasks) + [ReportBeaconError]
      ensures status == ClDenied && !isSilent ==> (tasks == old(tasks)
        && deniedAlertWaiters.Some? && deniedAlertWaiters.value[|deniedAlertWaiters.value| - 1] == BeaconWaiter)
    {
      if status == ClNotDetermined {
        EmitOther(RequestWhenInUseAuthorization);
      } else if status == ClRestricted {
        if !isSilent {
          PresentAlertForLocationRestricted();
        }
        Enqueue(ReportBeaconError);
      } else if status == ClDenied {
        if !isSilent {
          AwaitDeniedAlert(BeaconWaiter);
        } else {
          Enqueue(ReportBeaconError);
        }
      } else {
        Enqueue(ReportBeaconError);
      }
    }

    /** `_beaconCommandCallback`: the same answer to every once id and then
      * every watch id; the once ids are done, and the beacon session stops
      * when no id is left. */
    method BeaconFanOut(args: Args)
      requires Valid()
      modifies this`callbacks, this`beaconOnceRequestIds, this`isRangingBeacon, this`isMonitoringBeacon, this`effects
      ensures Valid()
      ensures callbacks == old(callbacks)
        + Broadcast(BeaconOnce, old(beaconOnceRequestIds), BeaconWatch, beaconWatchRequestIds, args)
      ensures beaconOnceRequestIds == []
      ensures beaconWatchRequestIds == [] ==> !isRangingBeacon && !isMonitoringBeacon
      ensures beaconWatchRequestIds != [] ==> (effects == old(effects)
        && isRangingBeacon == old(isRangingBeacon) && isMonitoringBeacon == old(isMonitoringBeacon))
    {
      var sent := BroadcastCallbacks(BeaconOnce, beaconOnceRequestIds, BeaconWatch, beaconWatchRequestIds, args);
      callbacks := callbacks + sent;
      beaconOnceRequestIds := [];
      StopBeaconRequestIfNoRequest();
    }

    /** The body of the error task of `beaconCommandCallback`: every id
      * hears the error with the status, and the watch ids are dropped. */
    method BeaconErrorCallback(status: ClAuthorizationStatus)
      requires Valid()
      modifies this`callbacks, this`beaconOnceRequestIds, this`beaconWatchRequestIds, this`isRangingBeacon,
        this`isMonitoringBeacon, this`effects
      ensures Valid()
      ensures callbacks == old(callbacks)
        + Broadcast(BeaconOnce, old(beaconOnceRequestIds), BeaconWatch, old(beaconWatchRequestIds), BeaconErrorArgs(status))
      ensures beaconOnceRequestIds == [] && beaconWatchRequestIds == []
    {
      BeaconFanOut(BeaconErrorArgs(status));
      beaconWatchRequestIds := [];
    }

    /** `beaconCommandCallback`: a scan answers with the beacons in range,
      * no scan and no error with an empty list, and an error is queued. */
    method BeaconCommandCallback(beacons: Option<seq<RangedBeacon>>, hasError: bool)
      requires Valid()
      modifies this`callbacks, this`beaconOnceRequestIds, this`isRangingBeacon, this`isMonitoringBeacon, this`effects,
        this`tasks
      ensures Valid()
      ensures beacons.Some? || !hasError ==> (tasks == old(tasks) && beaconOnceRequestIds == []
        && callbacks == old(callbacks)
          + Broadcast(BeaconOnce, old(beaconOnceRequestIds), BeaconWatch, beaconWatchRequestIds,
              BeaconListArgs(if beacons.Some? then BeaconRecords(InRange(beacons.value)) else [])))
      ensures beacons.None? && hasError ==> (tasks == old(tasks) + [ReportBeaconError]
        && callbacks == old(callbacks) && beaconOnceRequestIds == old(beaconOnceRequestIds))
    {
      if beacons.Some? {
        var records := RangedRecords(beacons.value);
        BeaconFanOut(BeaconListArgs(records));
      } else if !hasError {
        BeaconFanOut(BeaconListArgs([]));
      } else {
        Enqueue(ReportBeaconError);
      }
    }

    /** `didRangeBeacons`: a scan that arrives after ranging or monitoring
      * stopped is dropped. */
    method DidRangeBeacons(beacons: seq<RangedBeacon>)
      requires Valid()
      modifies this`callbacks, this`beaconOnceRequestIds, this`isRangingBeacon, this`isMonitoringBeacon, this`effects
      ensures Valid()
      ensures !(old(isRangingBeacon) && old(isMonitoringBeacon)) ==> (callbacks == old(callbacks)
        && beaconOnceRequestIds == old(beaconOnceRequestIds) && effects == old(effects))
      ensures old(isRangingBeacon) && old(isMonitoringBeacon) ==> (beaconOnceRequestIds == []
        && callbacks == old(callbacks)
          + Broadcast(BeaconOnce, old(beaconOnceRequestIds), BeaconWatch, beaconWatchRequestIds,
              BeaconListArgs(BeaconRecords(InRange(beacons)))))
    {
      if !(isRangingBeacon && isMonitoringBeacon) {
        return;
      }
      var records := RangedRecords(beacons);
      BeaconFanOut(BeaconListArgs(records));
    }

    /** `didStartMonitoringFor`: the region's state is asked for. */
    method DidStartMonitoring()
      requires Valid()
      modifies this`effects
      ensures Valid()
      ensures effects == old(effects) + (if useBeacon then [RequestRegionState] else [])
    {
      if useBeacon {
        EmitOther(RequestRegionState);
      }
    }

    /** `didDetermineState` and `didEnterRegion`: inside the region, ranging
      * starts. */
    method DidFindRegion(inside: bool)
      requires Valid()
      modifies this`isRangingBeacon, this`effects
      ensures Valid()
      ensures isRangingBeacon == (old(isRangingBeacon) || (useBeacon && inside))
      ensures effects == old(effects) + (if useBeacon && inside && !old(isRangingBeacon) then [StartRangingBeacons] else [])
    {
      if useBeacon && inside {
        StartRangingBeaconsIfNeeded();
      }
    }

    /** `didExitRegion`: ranging stops. */
    method DidExitRegion()
      requires Valid()
      modifies this`isRangingBeacon, this`effects
      ensures Valid() && !isRangingBeacon
      ensures effects == old(effects) + (if old(isRangingBeacon) then [StopRangingBeacons] else [])
    {
      if useBeacon {
        StopRangingBeaconsIfNeeded();
      }
    }

    /** `didChangeAuthorization`, beacon part: with ids pending, an
      * authorized status starts monitoring and a refusal stops the session
      * and queues the error answer. */
    method AuthorizationChangedForBeacons(status: ClAuthorizationStatus)
      requires Valid()
      modifies this`isMonitoringBeacon, this`isRangingBeacon, this`effects, this`tasks
      ensures Valid()
      ensures (beaconOnceRequestIds == [] && beaconWatchRequestIds == []) || status == ClNotDetermined ==> (
        isMonitoringBeacon == old(isMonitoringBeacon) && isRangingBeacon == old(isRangingBeacon)
        && effects == old(effects) && tasks == old(tasks))
      ensures (beaconOnceRequestIds != [] || beaconWatchRequestIds != []) && IsClAuthorized(status) ==> (
        isMonitoringBeacon == (useBeacon || old(isMonitoringBeacon)) && tasks == old(tasks))
      ensures ((beaconOnceRequestIds != [] || beaconWatchRequestIds != [])
        && status != ClNotDetermined && !IsClAuthorized(status)) ==> (
        !isMonitoringBeacon && !isRangingBeacon && tasks == old(tasks) + [ReportBeaconError])
    {
      if beaconOnceRequestIds != [] || beaconWatchRequestIds != [] {
        if IsClAuthorized(status) {
          StartMonitoringBeaconIfNeeded();
        } else if status != ClNotDetermined {
          StopBeaconSession();
          Enqueue(ReportBeaconError);
        }
      }
    }

    // -------------------------------------------------------------------
    // Lifecycle
    // -------------------------------------------------------------------

    /** `didEnterBackgroundNotification`, observed from the first
      * `viewDidAppear` on: the location session stops; a running beacon
      * session is paused. */
    method DidEnterBackground()
      requires Valid() && !isFirstViewAppear
      modifies this`isMeasuringLocation, this`isRangingBeacon, this`isMonitoringBeacon, this`isBeaconPaused,
        this`effects
      ensures Valid() && !isMeasuringLocation && !isRangingBeacon && !isMonitoringBeacon
      ensures isBeaconPaused == (old(isBeaconPaused) || (useBeacon && (old(isRangingBeacon) || old(isMonitoringBeacon))))
    {
      StopLocationRequest();
      if useBeacon && (isRangingBeacon || isMonitoringBeacon) {
        isBeaconPaused := true;
        StopBeaconSession();
      }
    }

    /** `willEnterForegroundNotification`, observed from the first
      * `viewDidAppear` on: pending watch ids ask for the
      * location session again, silently; with beacons, the pause ends and
      * pending beacon ids ask for their session again, silently. */
    method WillEnterForeground()
      requires Valid() && !isFirstViewAppear
      modifies this`tasks, this`isBeaconPaused
      ensures Valid()
      ensures isBeaconPaused == (old(isBeaconPaused) && !useBeacon)
      ensures tasks == old(tasks)
        + (if locationWatchRequestIds != [] then [StartLocation(false, true)] else [])
        + (if useBeacon && (beaconWatchRequestIds != [] || beaconOnceRequestIds != []) then [StartBeacon(true)] else [])
    {
      if locationWatchRequestIds != [] {
        Enqueue(StartLocation(false, true));
      }
      if useBeacon {
        isBeaconPaused := false;
        if beaconWatchRequestIds != [] || beaconOnceRequestIds != [] {
          Enqueue(StartBeacon(true));
        }
      }
    }

    /** `deinit`: every session stops. */
    method Deinit()
      requires Valid()
      modifies this`isMeasuringLocation, this`isRangingBeacon, this`isMonitoringBeacon, this`effects
      ensures Valid() && !isMeasuringLocation && !isRangingBeacon && !isMonitoringBeacon
      ensures LocationSessions(effects) == 0 && MonitoringSessions(effects) == 0 && RangingSessions(effects) == 0
    {
      StopLocationRequest();
      if useBeacon {
        StopBeaconSession();
      }
    }
  }
}
