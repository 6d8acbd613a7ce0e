// The sample application's bridge: the activity (PmMainActivity) owns the
// location session, the permission prompts, the splash screen and the
// keyboard handling; the fragment (PmMainFragment) it hosts owns the web
// view, decodes the page's `command://` requests over fourteen tags and
// keeps the pending request ids. Each calls the other: the fragment asks
// its activity for permission answers and location sessions, and the
// activity hands results back to the fragment.
//
// Permission answers, the clock and the platform's events are parameters;
// what each object asks of the platform is appended to its `effects`, and
// what the fragment sends to the page to its `callbacks`.
module SampleMain {
  import opened Common
  import opened Uri
  import opened Protocol
  import opened Permissions
  import opened MapUrl
  import opened AndroidBridge

  const RequestCodePermissionsLocation := 3002
  const RequestCodePermissionsCamera := 3003

  /** What the activity's `getStatusBarHeight` reports. */
  const StatusBarHeight := 0

  /** The splash stays at least this many milliseconds after the activity
    * was created. */
  const SplashMinimum := 1000

  /** The view is adjusted for the keyboard iff the keyboard is shown and
    * the page's query names an input page. */
  predicate ShouldAdjustView(visible: bool, page: Option<Uri>) {
    visible && page.Some? && page.value.query.Some? && InputPageQuery(page.value.query.value)
  }

  /** The answer of the QR reader: the text read, unless it is empty. */
  function QrArgs(result: Option<string>): (a: Args)
    ensures "value" in a <==> result.Some? && result.value != ""
    ensures "value" in a ==> a["value"] == Text(result.value)
    ensures a.Keys <= {"value"}
  {
    if result.Some? && result.value != "" then map["value" := Text(result.value)] else map[]
  }

  /** The callbacks a location permission answer sends: on a denial every
    * pending once id and then every watch id hears "denied"; the pending
    * `location.authorize` id hears the answer in any case. */
  function PermissionAnswerCallbacks(isGranted: bool, onceIds: seq<string>, watchIds: seq<string>,
                                     authorizeId: Option<string>): (cbs: seq<Callback>)
    ensures Recipients(cbs) == (if isGranted then [] else onceIds + watchIds)
      + (if authorizeId.Some? then [authorizeId.value] else [])
    ensures forall i :: 0 <= i < |cbs| ==> cbs[i].args == StatusArgs(if isGranted then Authorized else Denied)
  {
    var args := StatusArgs(if isGranted then Authorized else Denied);
    var denied := if isGranted then [] else Broadcast(LocationOnce, onceIds, LocationWatch, watchIds, args);
    var answer := Answer(LocationAuthorize, authorizeId, args);
    assert Recipients(denied + answer) == Recipients(denied) + Recipients(answer);
    FanOutAnswersEach(LocationOnce, onceIds, args);
    FanOutAnswersEach(LocationWatch, watchIds, args);
    denied + answer
  }

  /** The commands whose handling ends in the empty echo callback:
    * `web.ready` and `web.willreload` only without the activity, and a QR
    * request only without the activity and with no request pending. */
  predicate FragmentEchoes(tag: Tag, hasHost: bool, pendingQr: Option<string>) {
    tag == LocationClearWatch || tag == BrowseApp || tag == BrowseInApp || tag == MapNavigate
    || tag == AppDetect || tag == AppReview
    || ((tag == WebReady || tag == WebWillReload) && !hasHost)
    || (tag == StampRallyQrCode && !hasHost && pendingQr.None?)
  }

  class PmMainActivity {
    /** When the activity was created (`loadAt`). */
    const loadAt: int
    var splashVisible: bool
    var isMeasuringLocation: bool
    var lastLocation: Option<Location>
    /** `mainFragment()`. */
    var fragment: PmMainFragment?
    var effects: seq<Effect>

    function Fragments(): set<PmMainFragment>
      reads this`fragment
    {
      if fragment == null then {} else {fragment}
    }

    /** Location sessions started and not stopped. */
    static function LocationSessions(log: seq<Effect>): int {
      Balance(log, StartLocationUpdates, StopLocationUpdates)
    }

    /** One location session runs exactly while `isMeasuringLocation`, and
      * the hosted fragment knows this activity as its own. */
    predicate Valid()
      reads this`effects, this`isMeasuringLocation, this`fragment
    {
      LocationSessions(effects) == (if isMeasuringLocation then 1 else 0)
      && (fragment != null ==> fragment.host == this)
    }

    /** The activity and its fragment are both consistent. */
    predicate Linked()
      reads this`effects, this`isMeasuringLocation, this`fragment, Fragments()`isWebViewLoading,
        Fragments()`isWebViewLoadErrorVisible, Fragments()`reloadDialogOpen
    {
      Valid() && (fragment != null ==> fragment.Valid())
    }

    constructor (loadAt: int, splashVisible: bool)
      ensures Linked()
      ensures this.loadAt == loadAt && this.splashVisible == splashVisible
      ensures !isMeasuringLocation && lastLocation.None? && fragment == null && effects == []
    {
      this.loadAt := loadAt;
      this.splashVisible := splashVisible;
      isMeasuringLocation := false;
      lastLocation := None;
      fragment := null;
      effects := [];
    }

    /** An effect that starts or stops no location session keeps the
      * invariant. */
    method EmitOther(e: Effect)
      requires Valid() && e != StartLocationUpdates && e != StopLocationUpdates
      modifies this`effects
      ensures Valid() && effects == old(effects) + [e]
    {
      BalanceAppend(effects, e, StartLocationUpdates, StopLocationUpdates);
      effects := effects + [e];
    }

    /** Opens or closes the location session: the event is logged and the flag
      * follows it. */
    method SwitchLocation(on: bool)
      requires Valid() && isMeasuringLocation != on
      modifies this`effects, this`isMeasuringLocation
      ensures Valid() && isMeasuringLocation == on
      ensures old(Linked()) ==> Linked()
      ensures effects == old(effects) + [if on then StartLocationUpdates else StopLocationUpdates]
    {
      var e := if on then StartLocationUpdates else StopLocationUpdates;
      BalanceAppend(effects, e, StartLocationUpdates, StopLocationUpdates);
      effects := effects + [e];
      isMeasuringLocation := on;
    }

    /** `setupMainFragment` (posted one second after creation): hosts a new
      * fragment unless one is already there. */
    method SetupMainFragment(mapSlug: string, mapQuery: Option<string>, playStoreId: Option<string>,
                             appLinkUri: Option<string>, userId: Option<string>, secretKey: Option<string>)
      requires Linked()
      modifies this`fragment
      ensures Linked() && fragment != null
      ensures old(fragment) != null ==> fragment == old(fragment)
      ensures old(fragment) == null ==> (fresh(fragment) && fragment.attached
        && fragment.safeAreaTop == StatusBarHeight && fragment.mapSlug == mapSlug && fragment.mapQuery == mapQuery
        && fragment.playStoreId == playStoreId && fragment.appLinkUri == appLinkUri
        && fragment.userId == userId && fragment.secretKey == secretKey)
    {
      if fragment == null {
        fragment := new PmMainFragment(this, true, StatusBarHeight, mapSlug, mapQuery, playStoreId, appLinkUri,
                                       userId, secretKey);
      }
    }

    // -------------------------------------------------------------------
    // Splash
    // -------------------------------------------------------------------

    /** `hideSplashView`: a visible splash fades out after what is left of
      * the minimum display time. The completion is run by the caller. */
    method HideSplashView(now: int)
      requires Valid()
      modifies this`splashVisible, this`effects
      ensures Valid() && !splashVisible
      ensures effects == old(effects)
        + (if old(splashVisible) then [HideSplash(RemainingDelay(SplashMinimum, now - loadAt))] else [])
    {
      if splashVisible {
        splashVisible := false;
        EmitOther(HideSplash(RemainingDelay(SplashMinimum, now - loadAt)));
      }
    }

    /** `showSplashView`: a hidden splash fades in. The completion is run by
      * the caller. */
    method ShowSplashView()
      requires Valid()
      modifies this`splashVisible, this`effects
      ensures Valid() && splashVisible
      ensures effects == old(effects) + (if old(splashVisible) then [] else [ShowSplash])
    {
      if !splashVisible {
        splashVisible := true;
        EmitOther(ShowSplash);
      }
    }

    // -------------------------------------------------------------------
    // Permissions
    // -------------------------------------------------------------------

    /** `canUseCamera`: true iff the camera is granted; otherwise the
      * camera prompt is started, behind an explanation when the platform
      * asks for one. */
    method CanUseCamera(camera: PermissionState) returns (r: bool)
      requires Valid()
      modifies this`effects
      ensures Valid()
      ensures r == camera.granted
      ensures effects == old(effects)
        + (if camera.granted then []
           else if camera.showRationale then [ShowRationale([Camera], RequestCodePermissionsCamera)]
           else [RequestPermissions([Camera], RequestCodePermissionsCamera)])
    {
      if camera.granted {
        return true;
      }
      if camera.showRationale {
        EmitOther(ShowRationale([Camera], RequestCodePermissionsCamera));
      } else {
        EmitOther(RequestPermissions([Camera], RequestCodePermissionsCamera));
      }
      return false;
    }

    /** The OK button of an explanation dialog: the prompt starts. */
    method OnRationaleAccepted(permissions: seq<Permission>, requestCode: int)
      requires Valid()
      modifies this`effects
      ensures Valid()
      ensures effects == old(effects) + [RequestPermissions(permissions, requestCode)]
    {
      EmitOther(RequestPermissions(permissions, requestCode));
    }

    /** `locationPermissionStatus`. */
    function LocationPermissionStatus(fine: PermissionState): (s: AuthorizationStatus) {
      PermissionStatus(true, fine)
    }

    /** `requestLocationPermission`: an authorized status is reported to
      * the fragment at once as a grant; otherwise the prompt starts, behind
      * an explanation when the status is denied. */
    method RequestLocationPermission(fine: PermissionState)
      requires Linked()
      modifies this`effects, Fragments()`callbacks, Fragments()`locationOnceRequestIds,
        Fragments()`locationWatchRequestIds, Fragments()`locationAuthorizeRequestId
      ensures Linked()
      ensures LocationPermissionStatus(fine) == Authorized ==> (effects == old(effects)
        && (fragment != null ==> (
          fragment.callbacks == old(fragment.callbacks)
            + PermissionAnswerCallbacks(true, old(fragment.locationOnceRequestIds),
                old(fragment.locationWatchRequestIds), old(fragment.locationAuthorizeRequestId))
          && fragment.locationAuthorizeRequestId.None?
          && fragment.locationOnceRequestIds == old(fragment.locationOnceRequestIds)
          && fragment.locationWatchRequestIds == old(fragment.locationWatchRequestIds))))
      ensures LocationPermissionStatus(fine) != Authorized ==> (unchanged(Fragments())
        && effects == old(effects)
          + [if LocationPermissionStatus(fine) == Denied
             then ShowRationale([FineLocation], RequestCodePermissionsLocation)
             else RequestPermissions([FineLocation], RequestCodePermissionsLocation)])
    {
      var status := LocationPermissionStatus(fine);
      if status == Authorized {
        if fragment != null {
          fragment.UpdateLocationPermission(true);
        }
      } else if status == Denied {
        EmitOther(ShowRationale([FineLocation], RequestCodePermissionsLocation));
      } else {
        EmitOther(RequestPermissions([FineLocation], RequestCodePermissionsLocation));
      }
    }

    /** `onRequestPermissionsResult`: an answer naming no permission is
      * ignored; otherwise the location or camera answer, granted iff every
      * result is a grant, goes to the fragment. */
    method OnRequestPermissionsResult(requestCode: int, permissions: seq<Permission>, grants: seq<int>)
      requires Linked()
      modifies Fragments()`callbacks, Fragments()`locationOnceRequestIds, Fragments()`locationWatchRequestIds,
        Fragments()`locationAuthorizeRequestId, Fragments()`pendingQrCodeRequestId, Fragments()`effects
      ensures Linked()
      ensures (permissions == [] || fragment == null
        || (requestCode != RequestCodePermissionsLocation && requestCode != RequestCodePermissionsCamera))
        ==> unchanged(Fragments())
      ensures permissions != [] && fragment != null && requestCode == RequestCodePermissionsLocation ==> (
        fragment.callbacks == old(fragment.callbacks)
          + PermissionAnswerCallbacks(AllGranted(grants), old(fragment.locationOnceRequestIds),
              old(fragment.locationWatchRequestIds), old(fragment.locationAuthorizeRequestId))
        && fragment.locationAuthorizeRequestId.None?
        && fragment.pendingQrCodeRequestId == old(fragment.pendingQrCodeRequestId))
      ensures permissions != [] && fragment != null && requestCode == RequestCodePermissionsCamera ==> (
        fragment.pendingQrCodeRequestId.None?
        && fragment.locationAuthorizeRequestId == old(fragment.locationAuthorizeRequestId)
        && fragment.callbacks == old(fragment.callbacks)
          + (if old(fragment.pendingQrCodeRequestId).Some? && !AllGranted(grants)
             then [Callback(StampRallyQrCode, old(fragment.pendingQrCodeRequestId).value, map[])] else [])
        && fragment.effects == old(fragment.effects)
          + (if old(fragment.pendingQrCodeRequestId).Some? && AllGranted(grants)
             then [OpenQrReader(old(fragment.pendingQrCodeRequestId).value)] else []))
    {
      if permissions == [] || fragment == null {
        return;
      }
      var allGranted := AllGranted(grants);
      if requestCode == RequestCodePermissionsLocation {
        fragment.UpdateLocationPermission(allGranted);
      } else if requestCode == RequestCodePermissionsCamera {
        fragment.UpdateCameraPermission(allGranted);
      }
    }

    // -------------------------------------------------------------------
    // Location
    // -------------------------------------------------------------------

    /** `startLocationRequest(isOnce)`: nothing unless authorized; never a
      * second session; a once request while measuring replays the last
      * fix to the fragment. */
    method StartLocationRequest(isOnce: bool, fine: PermissionState)
      requires Linked()
      modifies this`isMeasuringLocation, this`effects, Fragments()`callbacks, Fragments()`locationOnceRequestIds
      ensures Linked()
      ensures LocationPermissionStatus(fine) != Authorized ==> (isMeasuringLocation == old(isMeasuringLocation)
        && effects == old(effects) && unchanged(Fragments()))
      ensures LocationPermissionStatus(fine) == Authorized && !old(isMeasuringLocation) ==> (
        isMeasuringLocation && effects == old(effects) + [StartLocationUpdates] && unchanged(Fragments()))
      ensures (LocationPermissionStatus(fine) == Authorized && old(isMeasuringLocation)
        && (!isOnce || fragment == null)) ==> (
        isMeasuringLocation && effects == old(effects) && unchanged(Fragments()))
      ensures (LocationPermissionStatus(fine) == Authorized && old(isMeasuringLocation)
        && isOnce && fragment != null) ==> (
        fragment.callbacks == old(fragment.callbacks)
          + Broadcast(LocationOnce, old(fragment.locationOnceRequestIds), LocationWatch,
              fragment.locationWatchRequestIds, LocationArgs(Authorized, lastLocation, false))
        && fragment.locationOnceRequestIds == []
        && isMeasuringLocation == (fragment.locationWatchRequestIds != [])
        && effects == old(effects) + (if fragment.locationWatchRequestIds == [] then [StopLocationUpdates] else []))
    {
      if LocationPermissionStatus(fine) != Authorized {
        return;
      }
      if !isMeasuringLocation {
        SwitchLocation(true);
      } else if isOnce && fragment != null {
        ReplayLastLocation(fine);
      }
    }

    /** The once branch of `startLocationRequest` while a session runs:
      * the fragment answers its pending once ids with the last fix. */
    method ReplayLastLocation(fine: PermissionState)
      requires Linked() && isMeasuringLocation && fragment != null
      modifies this`isMeasuringLocation, this`effects, fragment`callbacks, fragment`locationOnceRequestIds
      ensures Linked()
      ensures fragment.callbacks == old(fragment.callbacks)
          + Broadcast(LocationOnce, old(fragment.locationOnceRequestIds), LocationWatch,
              fragment.locationWatchRequestIds, LocationArgs(fragment.LocationStatusNow(fine), lastLocation, false))
      ensures fragment.locationOnceRequestIds == []
      ensures isMeasuringLocation == (fragment.locationWatchRequestIds != [])
      ensures effects == old(effects) + (if fragment.locationWatchRequestIds == [] then [StopLocationUpdates] else [])
    {
      fragment.UpdateLocation(lastLocation, false, fine);
    }

    /** `stopLocationRequest`: idempotent; the session is over afterwards. */
    method StopLocationRequest()
      requires Valid()
      modifies this`isMeasuringLocation, this`effects
      ensures Valid() && !isMeasuringLocation
      ensures effects == old(effects) + (if old(isMeasuringLocation) then [StopLocationUpdates] else [])
    {
      if !isMeasuringLocation {
        return;
      }
      SwitchLocation(false);
    }

    /** `onLocationChanged`: the fix is kept and handed to the fragment. */
    method OnLocationChanged(location: Location, fine: PermissionState)
      requires Linked()
      modifies this`lastLocation, this`isMeasuringLocation, this`effects, Fragments()`callbacks,
        Fragments()`locationOnceRequestIds
      ensures Linked()
      ensures lastLocation == Some(location)
      ensures fragment == null ==> (isMeasuringLocation == old(isMeasuringLocation) && effects == old(effects))
      ensures fragment != null ==> (
        fragment.callbacks == old(fragment.callbacks)
          + Broadcast(LocationOnce, old(fragment.locationOnceRequestIds), LocationWatch,
              fragment.locationWatchRequestIds,
              LocationArgs(LocationPermissionStatus(fine), Some(location), false))
        && fragment.locationOnceRequestIds == []
        && isMeasuringLocation == (old(isMeasuringLocation) && fragment.locationWatchRequestIds != [])
        && effects == old(effects)
          + (if old(isMeasuringLocation) && fragment.locationWatchRequestIds == [] then [StopLocationUpdates]
             else []))
    {
      lastLocation := Some(location);
      if fragment != null {
        fragment.UpdateLocation(Some(location), false, fine);
      }
    }

    // -------------------------------------------------------------------
    // Browser and keyboard
    // -------------------------------------------------------------------

    /** `openWebBrowseActivity`: the in-app browser screen. */
    method OpenWebBrowseActivity(target: Uri)
      requires Valid()
      modifies this`effects
      ensures Valid()
      ensures effects == old(effects) + [OpenBrowserActivity(target)]
    {
      EmitOther(OpenBrowserActivity(target));
    }

    /** `onKeyboardVisibilityChanged(visible)` with the fragment's current
      * page: the window is laid out for the keyboard iff the keyboard is
      * shown over an input page, and full screen otherwise. */
    method OnKeyboardVisibilityChanged(visible: bool, page: Option<Uri>)
      requires Valid()
      modifies this`effects
      ensures Valid()
      ensures effects == old(effects) + [SetSystemUi(ShouldAdjustView(visible, page))]
    {
      var shouldAdjustView := false;
      if visible && page.Some? && page.value.query.Some? {
        shouldAdjustView := InputPageQuery(page.value.query.value);
      }
      EmitOther(SetSystemUi(shouldAdjustView));
    }
  }

  class PmMainFragment {
    /** `mainActivity()`: the hosting activity, when it is the sample's. */
    const host: PmMainActivity?
    /** `activity` is not null. */
    const attached: bool
    const mapSlug: string
    const mapQuery: Option<string>
    var safeAreaTop: int
    var playStoreId: Option<string>
    var appLinkUri: Option<string>
    var userId: Option<string>
    var secretKey: Option<string>

    var originalUrl: Option<MapLink>
    var isWebViewLoading: bool
    /** The token of the latest load: its start time. */
    var webViewLoadingAt: Option<int>
    var hasWebReady: bool
    var isWebViewLoadErrorVisible: bool
    /** The reload dialog is on screen. */
    var reloadDialogOpen: bool
    /** The tokens of the posted timeouts (120 s after their load) that
      * have not fired yet. */
    var pendingLoadTimeouts: multiset<int>

    var locationAuthorizeRequestId: Option<string>
    var locationOnceRequestIds: seq<string>
    var locationWatchRequestIds: seq<string>
    var pendingQrCodeRequestId: Option<string>

    var callbacks: seq<Callback>
    var effects: seq<Effect>

    function Hosts(): set<PmMainActivity> {
      if host == null then {} else {host}
    }

    /** The flags a load error works on. */
    function LoadErrors(): LoadErrorState
      reads this`isWebViewLoading, this`isWebViewLoadErrorVisible, this`reloadDialogOpen
    {
      LoadErrorState(isWebViewLoading, isWebViewLoadErrorVisible, reloadDialogOpen)
    }

    /** The reload dialog is tracked, and the hosting activity is attached,
      * consistent and hosts this fragment. */
    predicate Valid()
      reads this`isWebViewLoading, this`isWebViewLoadErrorVisible, this`reloadDialogOpen,
        Hosts()`effects, Hosts()`isMeasuringLocation, Hosts()`fragment
    {
      DialogTracked(LoadErrors())
      && (host != null ==> attached && host.fragment == this && host.Valid())
    }

    /** `newInstance` and `onCreate`: the arguments are kept. */
    constructor (host: PmMainActivity?, attached: bool, safeAreaTop: int, mapSlug: string, mapQuery: Option<string>,
                 playStoreId: Option<string>, appLinkUri: Option<string>, userId: Option<string>,
                 secretKey: Option<string>)
      ensures this.host == host && this.attached == attached && this.safeAreaTop == safeAreaTop
      ensures this.mapSlug == mapSlug && this.mapQuery == mapQuery && this.playStoreId == playStoreId
      ensures this.appLinkUri == appLinkUri && this.userId == userId && this.secretKey == secretKey
      ensures originalUrl.None? && !isWebViewLoading && webViewLoadingAt.None? && !hasWebReady
      ensures !isWebViewLoadErrorVisible && !reloadDialogOpen && pendingLoadTimeouts == multiset{}
      ensures locationAuthorizeRequestId.None? && locationOnceRequestIds == [] && locationWatchRequestIds == []
      ensures pendingQrCodeRequestId.None? && callbacks == [] && effects == []
    {
      this.host := host;
      this.attached := attached;
      this.safeAreaTop := safeAreaTop;
      this.mapSlug := mapSlug;
      this.mapQuery := mapQuery;
      this.playStoreId := playStoreId;
      this.appLinkUri := appLinkUri;
      this.userId := userId;
      this.secretKey := secretKey;
      originalUrl := None;
      isWebViewLoading := false;
      webViewLoadingAt := None;
      hasWebReady := false;
      isWebViewLoadErrorVisible := false;
      reloadDialogOpen := false;
      pendingLoadTimeouts := multiset{};
      locationAuthorizeRequestId := None;
      locationOnceRequestIds := [];
      locationWatchRequestIds := [];
      pendingQrCodeRequestId := None;
      callbacks := [];
      effects := [];
    }

    // -------------------------------------------------------------------
    // Page loading
    // -------------------------------------------------------------------

    /** `onViewCreated`: the map address is built (a non-positive inset is
      * replaced by the status bar height) and loaded. */
    method OnViewCreated(now: int)
      modifies this`safeAreaTop, this`originalUrl, this`webViewLoadingAt, this`isWebViewLoading,
        this`pendingLoadTimeouts, this`effects
      ensures safeAreaTop == FragmentTop(old(safeAreaTop), StatusBarHeight)
      ensures originalUrl == Some(FragmentMapLink(mapSlug, mapQuery, safeAreaTop))
      ensures webViewLoadingAt == Some(now) && isWebViewLoading
      ensures pendingLoadTimeouts == old(pendingLoadTimeouts) + multiset{now}
      ensures effects == old(effects) + [LoadUrl(originalUrl.value)]
    {
      if safeAreaTop <= 0 {
        safeAreaTop := StatusBarHeight;
      }
      originalUrl := Some(FragmentMapLink(mapSlug, mapQuery, safeAreaTop));
      LoadWebView(now);
    }

    /** `loadWebView`: loads the page address, if there is one, makes `now`
      * the token of the latest load and posts its timeout. */
    method LoadWebView(now: int)
      modifies this`webViewLoadingAt, this`isWebViewLoading, this`pendingLoadTimeouts, this`effects
      ensures originalUrl.None? ==> (webViewLoadingAt == old(webViewLoadingAt)
        && isWebViewLoading == old(isWebViewLoading) && pendingLoadTimeouts == old(pendingLoadTimeouts)
        && effects == old(effects))
      ensures originalUrl.Some? ==> (webViewLoadingAt == Some(now) && isWebViewLoading
        && pendingLoadTimeouts == old(pendingLoadTimeouts) + multiset{now}
        && effects == old(effects) + [LoadUrl(originalUrl.value)])
    {
      if originalUrl.Some? {
        webViewLoadingAt := Some(now);
        effects := effects + [LoadUrl(originalUrl.value)];
        isWebViewLoading := true;
        pendingLoadTimeouts := pendingLoadTimeouts + multiset{now};
      }
    }

    /** The timeout posted by the load with token `loadingAt` fires: it
      * counts only for the latest load. */
    method LoadTimeoutFires(loadingAt: int)
      requires Valid() && loadingAt in pendingLoadTimeouts
      modifies this`pendingLoadTimeouts, this`isWebViewLoading, this`isWebViewLoadErrorVisible,
        this`reloadDialogOpen, this`effects
      ensures Valid()
      ensures pendingLoadTimeouts == old(pendingLoadTimeouts) - multiset{loadingAt}
      ensures webViewLoadingAt != Some(loadingAt) ==> (LoadErrors() == old(LoadErrors()) && effects == old(effects))
      ensures webViewLoadingAt == Some(loadingAt) ==> (
        var o := LoadErrorStep(hasWebReady, attached, old(LoadErrors()));
        LoadErrors() == o.after && effects == old(effects) + LoadErrorEffects(o))
    {
      pendingLoadTimeouts := pendingLoadTimeouts - multiset{loadingAt};
      if webViewLoadingAt != Some(loadingAt) {
        return;
      }
      ShowWebViewLoadErrorMessageIfNeeded();
    }

    /** `showWebViewLoadErrorMessageIfNeeded`. */
    method ShowWebViewLoadErrorMessageIfNeeded()
      requires Valid()
      modifies this`isWebViewLoading, this`isWebViewLoadErrorVisible, this`reloadDialogOpen, this`effects
      ensures Valid()
      ensures var o := LoadErrorStep(hasWebReady, attached, old(LoadErrors()));
        LoadErrors() == o.after && effects == old(effects) + LoadErrorEffects(o)
    {
      if hasWebReady {
        return;
      }
      if isWebViewLoading {
        effects := effects + [StopLoading];
      }
      isWebViewLoading := false;
      if isWebViewLoadErrorVisible {
        return;
      }
      if attached {
        effects := effects + [ShowReloadDialog];
        reloadDialogOpen := true;
        isWebViewLoadErrorVisible := true;
      }
    }

    /** `onReceivedError` and `onReceivedHttpError`. */
    method OnReceivedError()
      requires Valid()
      modifies this`isWebViewLoading, this`isWebViewLoadErrorVisible, this`reloadDialogOpen, this`effects
      ensures Valid()
      ensures var o := LoadErrorStep(hasWebReady, attached, old(LoadErrors()));
        LoadErrors() == o.after && effects == old(effects) + LoadErrorEffects(o)
    {
      ShowWebViewLoadErrorMessageIfNeeded();
    }

    /** `onPageFinished`. */
    method OnPageFinished()
      requires Valid()
      modifies this`isWebViewLoading
      ensures Valid() && !isWebViewLoading
    {
      isWebViewLoading := false;
    }

    /** The reload button of the dialog: the dialog goes and the page
      * loads again. */
    method OnReloadChosen(now: int)
      requires Valid() && reloadDialogOpen
      modifies this`reloadDialogOpen, this`isWebViewLoadErrorVisible, this`webViewLoadingAt,
        this`isWebViewLoading, this`pendingLoadTimeouts, this`effects
      ensures Valid()
      ensures !reloadDialogOpen && !isWebViewLoadErrorVisible
      ensures originalUrl.Some? ==> (webViewLoadingAt == Some(now) && isWebViewLoading
        && pendingLoadTimeouts == old(pendingLoadTimeouts) + multiset{now}
        && effects == old(effects) + [LoadUrl(originalUrl.value)])
      ensures originalUrl.None? ==> (webViewLoadingAt == old(webViewLoadingAt)
        && isWebViewLoading == old(isWebViewLoading) && pendingLoadTimeouts == old(pendingLoadTimeouts)
        && effects == old(effects))
    {
      reloadDialogOpen := false;
      isWebViewLoadErrorVisible := false;
      LoadWebView(now);
    }

    /** The dialog is dismissed without its button: the visible flag stays
      * set, so no reload dialog is raised again. */
    method OnReloadDialogCancelled()
      requires Valid() && reloadDialogOpen
      modifies this`reloadDialogOpen
      ensures Valid()
      ensures !reloadDialogOpen && isWebViewLoadErrorVisible
    {
      reloadDialogOpen := false;
    }

    // -------------------------------------------------------------------
    // Lifecycle
    // -------------------------------------------------------------------

    /** `onResume`: with requests pending, the activity's session is asked
      * for again, as a once request when no watch is pending. */
    method OnResume(fine: PermissionState)
      requires Valid()
      modifies Hosts()`isMeasuringLocation, Hosts()`effects, this`callbacks, this`locationOnceRequestIds
      ensures Valid()
      ensures (host == null || (old(locationOnceRequestIds) == [] && locationWatchRequestIds == [])) ==> (
        unchanged(Hosts()) && callbacks == old(callbacks) && locationOnceRequestIds == old(locationOnceRequestIds))
      ensures host != null && host.LocationPermissionStatus(fine) != Authorized ==> (
        unchanged(Hosts()) && callbacks == old(callbacks) && locationOnceRequestIds == old(locationOnceRequestIds))
      ensures (host != null && old(locationOnceRequestIds) + locationWatchRequestIds != []
        && host.LocationPermissionStatus(fine) == Authorized && !old(host.isMeasuringLocation)) ==> (
        host.isMeasuringLocation && host.effects == old(host.effects) + [StartLocationUpdates]
        && callbacks == old(callbacks) && locationOnceRequestIds == old(locationOnceRequestIds))
      ensures (host != null && locationWatchRequestIds != []
        && host.LocationPermissionStatus(fine) == Authorized && old(host.isMeasuringLocation)) ==> (
        unchanged(Hosts()) && callbacks == old(callbacks) && locationOnceRequestIds == old(locationOnceRequestIds))
      ensures (host != null && old(locationOnceRequestIds) != [] && locationWatchRequestIds == []
        && host.LocationPermissionStatus(fine) == Authorized && old(host.isMeasuringLocation)) ==> (
        callbacks == old(callbacks)
          + FanOut(LocationOnce, old(locationOnceRequestIds), LocationArgs(Authorized, host.lastLocation, false))
        && locationOnceRequestIds == []
        && !host.isMeasuringLocation && host.effects == old(host.effects) + [StopLocationUpdates])
    {
      if host != null && (locationOnceRequestIds != [] || locationWatchRequestIds != []) {
        host.StartLocationRequest(locationWatchRequestIds == [], fine);
      }
    }

    /** `onStop`: with requests pending, the activity's session stops. */
    method OnStop()
      requires Valid()
      modifies Hosts()`isMeasuringLocation, Hosts()`effects
      ensures Valid()
      ensures (host == null || (locationOnceRequestIds == [] && locationWatchRequestIds == [])) ==> unchanged(Hosts())
      ensures host != null && (locationOnceRequestIds != [] || locationWatchRequestIds != []) ==> (
        !host.isMeasuringLocation
        && host.effects == old(host.effects) + (if old(host.isMeasuringLocation) then [StopLocationUpdates] else []))
    {
      if host != null && (locationOnceRequestIds != [] || locationWatchRequestIds != []) {
        host.StopLocationRequest();
      }
    }

    // -------------------------------------------------------------------
    // Location
    // -------------------------------------------------------------------

    /** `locationPermissionStatus`: the activity's answer, denied without
      * the activity. */
    function LocationStatusNow(fine: PermissionState): (s: AuthorizationStatus)
      ensures s == (if host != null then PermissionStatus(true, fine) else Denied)
    {
      if host != null then host.LocationPermissionStatus(fine) else Denied
    }

    /** `stopLocationRequestIfNoRequest`. */
    method StopLocationRequestIfNoRequest()
      requires Valid()
      modifies Hosts()`isMeasuringLocation, Hosts()`effects
      ensures Valid()
      ensures (host == null || locationOnceRequestIds != [] || locationWatchRequestIds != []) ==> unchanged(Hosts())
      ensures host != null && locationOnceRequestIds == [] && locationWatchRequestIds == [] ==> (
        !host.isMeasuringLocation
        && host.effects == old(host.effects) + (if old(host.isMeasuringLocation) then [StopLocationUpdates] else []))
    {
      if locationWatchRequestIds == [] && locationOnceRequestIds == [] && host != null {
        host.StopLocationRequest();
      }
    }

    /** `updateLocation`: the same answer to every once id and then every
      * watch id; the once ids are done, and the session stops when no id
      * is left. */
    method UpdateLocation(location: Option<Location>, hasError: bool, fine: PermissionState)
      requires Valid()
      modifies this`callbacks, this`locationOnceRequestIds, Hosts()`isMeasuringLocation, Hosts()`effects
      ensures Valid()
      ensures callbacks == old(callbacks)
        + Broadcast(LocationOnce, old(locationOnceRequestIds), LocationWatch, locationWatchRequestIds,
            LocationArgs(LocationStatusNow(fine), location, hasError))
      ensures locationOnceRequestIds == []
      ensures host != null ==> (
        host.isMeasuringLocation == (old(host.isMeasuringLocation) && locationWatchRequestIds != [])
        && host.effects == old(host.effects)
          + (if old(host.isMeasuringLocation) && locationWatchRequestIds == [] then [StopLocationUpdates] else []))
    {
      var args := LocationArgs(LocationStatusNow(fine), location, hasError);
      var sent := BroadcastCallbacks(LocationOnce, locationOnceRequestIds, LocationWatch, locationWatchRequestIds,
                                     args);
      callbacks := callbacks + sent;
      locationOnceRequestIds := [];
      StopLocationRequestIfNoRequest();
    }

    /** `updateLocationPermission`: a denial answers and drops every
      * pending once and watch id; the `location.authorize` id is answered
      * and forgotten either way. */
    method UpdateLocationPermission(isGranted: bool)
      modifies this`callbacks, this`locationOnceRequestIds, this`locationWatchRequestIds,
        this`locationAuthorizeRequestId
      ensures callbacks == old(callbacks)
        + PermissionAnswerCallbacks(isGranted, old(locationOnceRequestIds), old(locationWatchRequestIds),
            old(locationAuthorizeRequestId))
      ensures locationAuthorizeRequestId.None?
      ensures isGranted ==> (locationOnceRequestIds == old(locationOnceRequestIds)
        && locationWatchRequestIds == old(locationWatchRequestIds))
      ensures !isGranted ==> locationOnceRequestIds == [] && locationWatchRequestIds == []
    {
      var args := StatusArgs(if isGranted then Authorized else Denied);
      if !isGranted {
        var sent := BroadcastCallbacks(LocationOnce, locationOnceRequestIds, LocationWatch, locationWatchRequestIds,
                                       args);
        callbacks := callbacks + sent;
        locationOnceRequestIds := [];
        locationWatchRequestIds := [];
      }
      callbacks := callbacks + Answer(LocationAuthorize, locationAuthorizeRequestId, args);
      locationAuthorizeRequestId := None;
    }

    /** `startLocationRequest(command, requestId)`: without the activity the
      * request is answered at once as denied; otherwise an unauthorized
      * status starts the prompt and an authorized one the activity's
      * session. */
    method StartLocationRequest(tag: Tag, id: string, fine: PermissionState)
      requires Valid()
      modifies this`callbacks, this`locationOnceRequestIds, this`locationWatchRequestIds,
        this`locationAuthorizeRequestId, Hosts()`isMeasuringLocation, Hosts()`effects
      ensures Valid()
      ensures locationWatchRequestIds == old(locationWatchRequestIds)
      ensures locationAuthorizeRequestId == old(locationAuthorizeRequestId)
      ensures host == null ==> (callbacks == old(callbacks) + [Callback(tag, id, StatusArgs(Denied))]
        && locationOnceRequestIds == old(locationOnceRequestIds))
      ensures host != null && LocationStatusNow(fine) != Authorized ==> (
        callbacks == old(callbacks) && locationOnceRequestIds == old(locationOnceRequestIds)
        && host.isMeasuringLocation == old(host.isMeasuringLocation)
        && host.effects == old(host.effects)
          + [if LocationStatusNow(fine) == Denied then ShowRationale([FineLocation], RequestCodePermissionsLocation)
             else RequestPermissions([FineLocation], RequestCodePermissionsLocation)])
      ensures host != null && LocationStatusNow(fine) == Authorized && !old(host.isMeasuringLocation) ==> (
        callbacks == old(callbacks) && locationOnceRequestIds == old(locationOnceRequestIds)
        && host.isMeasuringLocation && host.effects == old(host.effects) + [StartLocationUpdates])
      ensures (host != null && LocationStatusNow(fine) == Authorized && old(host.isMeasuringLocation)
        && tag != LocationOnce) ==> (
        callbacks == old(callbacks) && locationOnceRequestIds == old(locationOnceRequestIds)
        && host.isMeasuringLocation && host.effects == old(host.effects))
      ensures (host != null && LocationStatusNow(fine) == Authorized && old(host.isMeasuringLocation)
        && tag == LocationOnce) ==> (
        callbacks == old(callbacks)
          + Broadcast(LocationOnce, old(locationOnceRequestIds), LocationWatch, locationWatchRequestIds,
              LocationArgs(Authorized, host.lastLocation, false))
        && locationOnceRequestIds == [])
    {
      var status := LocationStatusNow(fine);
      if host != null {
        if status != Authorized {
          host.RequestLocationPermission(fine);
        } else {
          host.StartLocationRequest(tag == LocationOnce, fine);
        }
        return;
      }
      callbacks := callbacks + [Callback(tag, id, StatusArgs(status))];
    }

    // -------------------------------------------------------------------
    // QR code reader
    // -------------------------------------------------------------------

    /** `canUseCamera`: the activity's answer; when it says no, the request
      * waits in the single pending slot for the prompt's answer. */
    method CanUseCamera(id: string, camera: PermissionState) returns (r: bool)
      requires Valid()
      modifies this`pendingQrCodeRequestId, Hosts()`effects
      ensures Valid()
      ensures r == (host != null && camera.granted)
      ensures pendingQrCodeRequestId == (if host != null && !camera.granted then Some(id)
                                        else old(pendingQrCodeRequestId))
      ensures host != null ==> (host.effects == old(host.effects)
        + (if camera.granted then []
           else if camera.showRationale then [ShowRationale([Camera], RequestCodePermissionsCamera)]
           else [RequestPermissions([Camera], RequestCodePermissionsCamera)]))
    {
      if host != null {
        r := host.CanUseCamera(camera);
        if r {
          return;
        }
        pendingQrCodeRequestId := Some(id);
      }
      return false;
    }

    /** `updateCameraPermission`: the pending QR request gets the reader on
      * a grant and the empty answer on a denial; the slot is emptied. */
    method UpdateCameraPermission(isGranted: bool)
      modifies this`pendingQrCodeRequestId, this`callbacks, this`effects
      ensures pendingQrCodeRequestId.None?
      ensures callbacks == old(callbacks)
        + (if old(pendingQrCodeRequestId).Some? && !isGranted
           then [Callback(StampRallyQrCode, old(pendingQrCodeRequestId).value, map[])] else [])
      ensures effects == old(effects)
        + (if old(pendingQrCodeRequestId).Some? && isGranted
           then [OpenQrReader(old(pendingQrCodeRequestId).value)] else [])
    {
      if pendingQrCodeRequestId.Some? {
        if isGranted {
          effects := effects + [OpenQrReader(pendingQrCodeRequestId.value)];
        } else {
          callbacks := callbacks + [Callback(StampRallyQrCode, pendingQrCodeRequestId.value, map[])];
        }
      }
      pendingQrCodeRequestId := None;
    }

    /** The reader read a code. */
    method OnQrCodeRead(id: string, result: Option<string>)
      modifies this`callbacks
      ensures callbacks == old(callbacks) + [Callback(StampRallyQrCode, id, QrArgs(result))]
    {
      callbacks := callbacks + [Callback(StampRallyQrCode, id, QrArgs(result))];
    }

    /** The reader's cancel button. */
    method OnQrReaderCancelled(id: string)
      modifies this`callbacks
      ensures callbacks == old(callbacks) + [Callback(StampRallyQrCode, id, map[])]
    {
      callbacks := callbacks + [Callback(StampRallyQrCode, id, map[])];
    }

    /** `stamprally.qrcode`: the reader opens when the camera may be used;
      * otherwise the request waits in the pending slot. Reports whether
      * the command ends in the empty echo. */
    method CommandQrCode(id: string, camera: PermissionState) returns (echo: bool)
      requires Valid()
      modifies this`pendingQrCodeRequestId, this`effects, Hosts()`effects
      ensures Valid()
      ensures echo == (host == null && old(pendingQrCodeRequestId).None?)
      ensures effects == old(effects) + (if host != null && camera.granted then [OpenQrReader(id)] else [])
      ensures pendingQrCodeRequestId == (if host != null && !camera.granted then Some(id)
                                        else old(pendingQrCodeRequestId))
    {
      var canUse := CanUseCamera(id, camera);
      if canUse {
        effects := effects + [OpenQrReader(id)];
        return false;
      }
      return pendingQrCodeRequestId.None?;
    }

    // -------------------------------------------------------------------
    // Links
    // -------------------------------------------------------------------

    /** The link a browse command names, resolved against the page by
      * `parseBrowseUrl`: kept when it names a host, otherwise rebuilt on
      * the page's https://platinumaps.jp origin (a `tel` link too). */
    function BrowseTarget(u: Uri): (r: Option<Uri>)
      reads this`originalUrl
      ensures r.Some? ==> FirstValue(QueryItems(u), "url").Some?
      ensures (FirstValue(QueryItems(u), "url").Some? && originalUrl.Some?) ==> r.Some?
      ensures FirstValue(QueryItems(u), "url").Some? ==>
        var url := FirstValue(QueryItems(u), "url").value;
        (OpensAsWritten(url, false) ==> r == Some(AndroidParse(url)))
        && (!OpensAsWritten(url, false) && originalUrl.Some? ==>
              r.value.scheme == Some("https") && r.value.authority == Some("platinumaps.jp"))
    {
      match FirstValue(QueryItems(u), "url")
      case None => None
      case Some(url) =>
        ResolveBrowseUrl(url, if originalUrl.Some? then Some(LinkUri(originalUrl.value)) else None, false)
    }

    /** `openWebBrowseInApp`: a Custom Tab, only with the activity. */
    method OpenWebBrowseInApp(target: Uri)
      modifies this`effects
      ensures effects == old(effects) + (if host != null then [OpenInApp(target)] else [])
    {
      if host != null {
        effects := effects + [OpenInApp(target)];
      }
    }

    /** `commandWebBrowse`: `browse.app` and `map.navigate` open the link in
      * another application; `browse.inapp` opens it in a Custom Tab, or in
      * the activity's browser screen when `sharedCookie=true`. */
    method CommandWebBrowse(tag: Tag, u: Uri)
      requires Valid()
      modifies this`effects, Hosts()`effects
      ensures Valid()
      ensures var target := BrowseTarget(u);
        var shared := FirstValue(QueryItems(u), "sharedCookie") == Some("true");
        (target.None? || !(tag == BrowseApp || tag == MapNavigate || tag == BrowseInApp) ==> (
          effects == old(effects) && unchanged(Hosts())))
        && (target.Some? && (tag == BrowseApp || tag == MapNavigate) ==> (
          effects == old(effects) + [ViewIntent(target.value)] && unchanged(Hosts())))
        && (target.Some? && tag == BrowseInApp && shared ==> (effects == old(effects)
          && (host != null ==> host.effects == old(host.effects) + [OpenBrowserActivity(target.value)])))
        && (target.Some? && tag == BrowseInApp && !shared ==> (unchanged(Hosts())
          && effects == old(effects) + (if host != null then [OpenInApp(target.value)] else [])))
    {
      var target := BrowseTarget(u);
      var shared := FirstValue(QueryItems(u), "sharedCookie") == Some("true");
      OpenBrowseTarget(tag, target, shared);
    }

    /** The effect of a browse command once its target and its
      * `sharedCookie` flag are known. */
    method OpenBrowseTarget(tag: Tag, target: Option<Uri>, shared: bool)
      requires Valid()
      modifies this`effects, Hosts()`effects
      ensures Valid()
      ensures target.None? || !(tag == BrowseApp || tag == MapNavigate || tag == BrowseInApp) ==> (
        effects == old(effects) && unchanged(Hosts()))
      ensures target.Some? && (tag == BrowseApp || tag == MapNavigate) ==> (
        effects == old(effects) + [ViewIntent(target.value)] && unchanged(Hosts()))
      ensures target.Some? && tag == BrowseInApp && shared ==> (
        effects == old(effects) && (host != null ==> host.effects == old(host.effects) + [OpenBrowserActivity(target.value)]))
      ensures target.Some? && tag == BrowseInApp && !shared ==> (
        unchanged(Hosts()) && effects == old(effects) + (if host != null then [OpenInApp(target.value)] else []))
    {
      if target.Some? {
        if tag == BrowseApp || tag == MapNavigate {
          effects := effects + [ViewIntent(target.value)];
        } else if tag == BrowseInApp {
          if shared {
            if host != null {
              host.OpenWebBrowseActivity(target.value);
            }
          } else {
            OpenWebBrowseInApp(target.value);
          }
        }
      }
    }

    // -------------------------------------------------------------------
    // Commands
    // -------------------------------------------------------------------

    /** `web.ready`: the page is ready; with the activity the splash hides
      * and the answer hands over the waiting launch URL once. Reports
      * whether the command ends in the empty echo. */
    method CommandWebReady(id: string, now: int) returns (echo: bool)
      requires Valid()
      modifies this`hasWebReady, this`appLinkUri, this`callbacks, Hosts()`splashVisible, Hosts()`effects
      ensures Valid()
      ensures hasWebReady && echo == (host == null)
      ensures host == null ==> (appLinkUri == old(appLinkUri) && callbacks == old(callbacks))
      ensures host != null ==> (appLinkUri.None? && !host.splashVisible
        && callbacks == old(callbacks) + [Callback(WebReady, id, LaunchArgs(old(appLinkUri)))]
        && host.effects == old(host.effects)
          + (if old(host.splashVisible) then [HideSplash(RemainingDelay(SplashMinimum, now - host.loadAt))] else []))
    {
      hasWebReady := true;
      if host != null {
        host.HideSplashView(now);
        var args := LaunchArgs(appLinkUri);
        appLinkUri := None;
        callbacks := callbacks + [Callback(WebReady, id, args)];
        return false;
      }
      return true;
    }

    /** `web.willreload`: the page is no longer ready; with the activity the
      * splash shows and the empty answer follows. Reports whether the
      * command ends in the empty echo. */
    method CommandWebWillReload(id: string) returns (echo: bool)
      requires Valid()
      modifies this`hasWebReady, this`callbacks, Hosts()`splashVisible, Hosts()`effects
      ensures Valid()
      ensures !hasWebReady && echo == (host == null)
      ensures host == null ==> callbacks == old(callbacks)
      ensures host != null ==> (host.splashVisible
        && callbacks == old(callbacks) + [Callback(WebWillReload, id, map[])]
        && host.effects == old(host.effects) + (if old(host.splashVisible) then [] else [ShowSplash]))
    {
      hasWebReady := false;
      if host != null {
        host.ShowSplashView();
        callbacks := callbacks + [Callback(WebWillReload, id, map[])];
        return false;
      }
      return true;
    }

    /** `location.authorize`: answered at once when authorized (or, without
      * the activity, as denied); otherwise the id waits for the prompt. */
    method CommandLocationAuthorize(id: string, fine: PermissionState)
      requires Valid()
      modifies this`callbacks, this`locationAuthorizeRequestId, this`locationOnceRequestIds,
        this`locationWatchRequestIds, Hosts()`effects
      ensures Valid()
      ensures locationOnceRequestIds == old(locationOnceRequestIds)
      ensures locationWatchRequestIds == old(locationWatchRequestIds)
      ensures LocationStatusNow(fine) == Authorized || host == null ==> (
        callbacks == old(callbacks) + [Callback(LocationAuthorize, id, StatusArgs(LocationStatusNow(fine)))]
        && locationAuthorizeRequestId == old(locationAuthorizeRequestId) && unchanged(Hosts()))
      ensures LocationStatusNow(fine) != Authorized && host != null ==> (
        callbacks == old(callbacks) && locationAuthorizeRequestId == Some(id)
        && host.effects == old(host.effects)
          + [if LocationStatusNow(fine) == Denied then ShowRationale([FineLocation], RequestCodePermissionsLocation)
             else RequestPermissions([FineLocation], RequestCodePermissionsLocation)])
    {
      if host != null {
        var status := host.LocationPermissionStatus(fine);
        if status == Authorized {
          callbacks := callbacks + [Callback(LocationAuthorize, id, StatusArgs(status))];
        } else {
          locationAuthorizeRequestId := Some(id);
          host.RequestLocationPermission(fine);
        }
        return;
      }
      callbacks := callbacks + [Callback(LocationAuthorize, id, StatusArgs(Denied))];
    }

    /** `location.once` / `location.watch`: the id joins its list and the
      * session is asked for. */
    method CommandLocationRequest(tag: Tag, id: string, fine: PermissionState)
      requires Valid() && (tag == LocationOnce || tag == LocationWatch)
      modifies this`callbacks, this`locationOnceRequestIds, this`locationWatchRequestIds,
        this`locationAuthorizeRequestId, Hosts()`isMeasuringLocation, Hosts()`effects
      ensures Valid()
      ensures locationAuthorizeRequestId == old(locationAuthorizeRequestId)
      ensures tag == LocationWatch ==> locationWatchRequestIds == old(locationWatchRequestIds) + [id]
      ensures tag == LocationOnce ==> locationWatchRequestIds == old(locationWatchRequestIds)
      ensures tag == LocationOnce && host == null ==> locationOnceRequestIds == old(locationOnceRequestIds) + [id]
      ensures host == null ==> callbacks == old(callbacks) + [Callback(tag, id, StatusArgs(Denied))]
    {
      if tag == LocationOnce {
        locationOnceRequestIds := locationOnceRequestIds + [id];
      } else {
        locationWatchRequestIds := locationWatchRequestIds + [id];
      }
      StartLocationRequest(tag, id, fine);
    }

    /** `location.clearwatch`: every watch id goes; the session stops when
      * no id is left. */
    method CommandLocationClearWatch()
      requires Valid()
      modifies this`locationWatchRequestIds, Hosts()`isMeasuringLocation, Hosts()`effects
      ensures Valid()
      ensures locationWatchRequestIds == []
      ensures host != null && locationOnceRequestIds == [] ==> (!host.isMeasuringLocation
        && host.effects == old(host.effects) + (if old(host.isMeasuringLocation) then [StopLocationUpdates] else []))
      ensures host == null || locationOnceRequestIds != [] ==> unchanged(Hosts())
    {
      locationWatchRequestIds := [];
      StopLocationRequestIfNoRequest();
    }

    /** The command-specific part of `runCommand`. Reports whether the
      * command ends in the empty echo. */
    method Dispatch(tag: Tag, id: string, u: Uri, fine: PermissionState, camera: PermissionState, now: int)
      returns (echo: bool)
      requires Valid()
      modifies this, Hosts()
      ensures Valid()
      ensures echo == FragmentEchoes(tag, host != null, old(pendingQrCodeRequestId))
      ensures echo ==> callbacks == old(callbacks)
      ensures tag == AppInfo ==>
        callbacks == old(callbacks) + [Callback(AppInfo, id, AppInfoArgs(old(userId), old(secretKey)))]
      ensures tag == LocationStatus ==>
        callbacks == old(callbacks) + [Callback(LocationStatus, id, StatusArgs(LocationStatusNow(fine)))]
    {
      if tag in {LocationStatus, LocationAuthorize, LocationOnce, LocationWatch, LocationClearWatch} {
        DispatchLocationCommand(tag, id, fine);
        echo := tag == LocationClearWatch;
      } else if tag in {BrowseApp, BrowseInApp, MapNavigate, AppReview} {
        DispatchLinkCommand(tag, u);
        echo := true;
      } else {
        echo := DispatchPageCommand(tag, id, camera, now);
      }
    }

    /** The commands about the page itself and the QR reader; the echo
      * follows `FragmentEchoes`. */
    method DispatchPageCommand(tag: Tag, id: string, camera: PermissionState, now: int) returns (echo: bool)
      requires Valid()
      requires tag !in {LocationStatus, LocationAuthorize, LocationOnce, LocationWatch, LocationClearWatch}
      requires tag !in {BrowseApp, BrowseInApp, MapNavigate, AppReview}
      modifies this, Hosts()
      ensures Valid()
      ensures echo == FragmentEchoes(tag, host != null, old(pendingQrCodeRequestId))
      ensures echo ==> callbacks == old(callbacks)
      ensures tag == AppInfo ==>
        callbacks == old(callbacks) + [Callback(AppInfo, id, AppInfoArgs(old(userId), old(secretKey)))]
    {
      echo := FragmentEchoes(tag, host != null, pendingQrCodeRequestId);
      if tag == AppInfo {
        callbacks := callbacks + [Callback(AppInfo, id, AppInfoArgs(userId, secretKey))];
      } else if tag == WebReady {
        echo := CommandWebReady(id, now);
      } else if tag == WebWillReload {
        echo := CommandWebWillReload(id);
      } else if tag == StampRallyQrCode {
        echo := CommandQrCode(id, camera);
      }
    }

    /** The commands that open a link; none answers for itself. */
    method DispatchLinkCommand(tag: Tag, u: Uri)
      requires Valid()
      requires tag in {BrowseApp, BrowseInApp, MapNavigate, AppReview}
      modifies this, Hosts()
      ensures Valid()
      ensures callbacks == old(callbacks) && pendingQrCodeRequestId == old(pendingQrCodeRequestId)
    {
      if tag == AppReview {
        CommandAppReview();
      } else {
        CommandWebBrowse(tag, u);
      }
    }

    /** The `app.review` branch: the Play Store page of the configured
      * store id is opened in the browser; nothing without one. */
    method CommandAppReview()
      modifies this`effects
      ensures effects == old(effects) + (if playStoreId.Some? then [ViewIntent(PlayStoreUri(playStoreId.value))] else [])
    {
      if playStoreId.Some? {
        effects := effects + [ViewIntent(PlayStoreUri(playStoreId.value))];
      }
    }

    /** The location part of `runCommand`; only `location.clearwatch` ends
      * with the empty echo, and it answers nothing itself. */
    method DispatchLocationCommand(tag: Tag, id: string, fine: PermissionState)
      requires Valid()
      requires tag in {LocationStatus, LocationAuthorize, LocationOnce, LocationWatch, LocationClearWatch}
      modifies this, Hosts()
      ensures Valid()
      ensures tag == LocationClearWatch ==> callbacks == old(callbacks)
      ensures tag == LocationStatus ==>
        callbacks == old(callbacks) + [Callback(LocationStatus, id, StatusArgs(LocationStatusNow(fine)))]
    {
      if tag == LocationStatus {
        callbacks := callbacks + [Callback(LocationStatus, id, StatusArgs(LocationStatusNow(fine)))];
      } else if tag == LocationAuthorize {
        CommandLocationAuthorize(id, fine);
      } else if tag == LocationOnce || tag == LocationWatch {
        CommandLocationRequest(tag, id, fine);
      } else {
        CommandLocationClearWatch();
      }
    }

    /** `runCommand`: 1 when the host names none of the fourteen tags or
      * there is no `requestId`, and then nothing happens; otherwise the
      * command runs, ends with the empty echo exactly when
      * `FragmentEchoes` says so, and 0. */
    method RunCommand(u: Uri, fine: PermissionState, camera: PermissionState, now: int) returns (r: int)
      requires Valid()
      modifies this, Hosts()
      ensures Valid()
      ensures r == (if AndroidRequest(SampleFragmentTags, u).None? then 1 else 0)
      ensures AndroidRequest(SampleFragmentTags, u).None? ==> unchanged(this) && unchanged(Hosts())
      ensures var req := AndroidRequest(SampleFragmentTags, u);
        req.Some? && FragmentEchoes(req.value.tag, host != null, old(pendingQrCodeRequestId)) ==>
          callbacks == old(callbacks) + [Callback(req.value.tag, req.value.requestId, map[])]
      ensures var req := AndroidRequest(SampleFragmentTags, u);
        req.Some? && req.value.tag == AppInfo ==>
          callbacks == old(callbacks) + [Callback(AppInfo, req.value.requestId, AppInfoArgs(old(userId), old(secretKey)))]
      ensures var req := AndroidRequest(SampleFragmentTags, u);
        req.Some? && req.value.tag == LocationStatus ==>
          callbacks == old(callbacks) + [Callback(LocationStatus, req.value.requestId, StatusArgs(LocationStatusNow(fine)))]
    {
      var req := AndroidRequest(SampleFragmentTags, u);
      if req.None? {
        return 1;
      }
      RunDecoded(req.value.tag, req.value.requestId, u, fine, camera, now);
      return 0;
    }

    /** A decoded command runs, followed by its echo. */
    method RunDecoded(tag: Tag, id: string, u: Uri, fine: PermissionState, camera: PermissionState, now: int)
      requires Valid()
      modifies this, Hosts()
      ensures Valid()
      ensures FragmentEchoes(tag, host != null, old(pendingQrCodeRequestId)) ==>
        callbacks == old(callbacks) + [Callback(tag, id, map[])]
      ensures tag == AppInfo ==>
        callbacks == old(callbacks) + [Callback(AppInfo, id, AppInfoArgs(old(userId), old(secretKey)))]
      ensures tag == LocationStatus ==>
        callbacks == old(callbacks) + [Callback(LocationStatus, id, StatusArgs(LocationStatusNow(fine)))]
    {
      var echo := Dispatch(tag, id, u, fine, camera, now);
      if echo {
        callbacks := callbacks + [Callback(tag, id, map[])];
      }
    }

    /** `openRequest`: a `command` URI is always consumed (0); any other URI
      * goes to a Custom Tab once the page is ready (0) and is left to the
      * web view before that (1). */
    method OpenRequest(u: Uri, fine: PermissionState, camera: PermissionState, now: int) returns (r: int)
      requires Valid()
      modifies this, Hosts()
      ensures Valid()
      ensures r == (if u.scheme == Some("command") || old(hasWebReady) then 0 else 1)
      ensures u.scheme != Some("command") ==> (callbacks == old(callbacks) && unchanged(Hosts())
        && effects == old(effects) + (if old(hasWebReady) && host != null then [OpenInApp(u)] else []))
      ensures u.scheme == Some("command") && AndroidRequest(SampleFragmentTags, u).None? ==> (
        unchanged(this) && unchanged(Hosts()))
    {
      if u.scheme == Some("command") {
        var _ := RunCommand(u, fine, camera, now);
      } else if hasWebReady {
        OpenWebBrowseInApp(u);
      } else {
        return 1;
      }
      return 0;
    }

    /** `shouldOverrideUrlLoading`: the web view skips exactly the
      * navigations the bridge consumed. */
    method ShouldOverrideUrlLoading(request: Option<Uri>, fine: PermissionState, camera: PermissionState, now: int)
      returns (handled: bool)
      requires Valid()
      modifies this, Hosts()
      ensures Valid()
      ensures handled == (request.Some? && (request.value.scheme == Some("command") || old(hasWebReady)))
      ensures request.None? ==> unchanged(this) && unchanged(Hosts())
    {
      if request.Some? {
        var r := OpenRequest(request.value, fine, camera, now);
        if r == 0 {
          return true;
        }
      }
      return false;
    }
  }
}
