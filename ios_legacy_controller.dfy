// The older iOS map screen (the application's own PMMainViewController,
// before the SDK): fifteen command tags, no beacons, and every location
// answer given synchronously. It also guards the first page load with a
// 30-second timeout, keeps at most one load-error alert on screen, and
// locks the page's scrolling while the keyboard covers the map's search
// field.
//
// The authorization status, which the source queries where it needs it, is
// a parameter of each event; so are the time (in ms) and whether another
// application can open a link.
module IosLegacyController {
  import opened Common
  import opened Uri
  import opened Protocol
  import opened Permissions
  import opened MapUrl
  import Sdk = IosSdkController

  /** How long a load may take before it is an error, in ms. */
  const LoadTimeout := 30000

  /** What the screen asks of the system. */
  datatype Effect =
    | LoadPage(target: Uri)
    | ReloadPage
    | StopLoading
    | PresentLoadError
    | ShowCover | HideCover(delay: int)
    | RequestWhenInUseAuthorization
    | PresentDeniedAlert | OpenSettings
    | StartUpdatingLocation | StopUpdatingLocation | RequestLocation
    | OpenUrl(target: Uri)
    | PresentSafari(target: Uri) | PresentWebViewController(target: Uri)
    | DismissPresented
    | ResetContentOffset

  /** `app.info`'s arguments: the user id and secret key unless empty. */
  function AppInfoArgs(userId: Option<string>, secretKey: Option<string>): (a: Args)
    ensures "userId" in a <==> userId.Some? && userId.value != ""
    ensures "userId" in a ==> a["userId"] == Text(userId.value)
    ensures "secretKey" in a <==> secretKey.Some? && secretKey.value != ""
    ensures "secretKey" in a ==> a["secretKey"] == Text(secretKey.value)
    ensures a.Keys <= {"userId", "secretKey"}
  {
    var withUser: Args := if userId.Some? && userId.value != "" then map["userId" := Text(userId.value)] else map[];
    if secretKey.Some? && secretKey.value != "" then withUser["secretKey" := Text(secretKey.value)] else withUser
  }

  /** The map address: `native=1`, the host's query and the two insets. */
  function PageAddress(mapSlug: string, mapQuery: seq<Param>, top: int, bottom: int): Uri {
    LinkUri(IosMapLink(mapSlug, None, mapQuery, top, bottom, 0))
  }

  /** The link a browse command names: as written when it names a host,
    * otherwise read against the page address (section 5.2 of RFC 3986,
    * dot segments removed). A link with a scheme but no host (`tel:`)
    * stays as written; any other link takes the page's scheme and
    * authority and keeps its own query and fragment. */
  function BrowseTarget(target: string, original: Option<Uri>): (u: Uri)
    ensures Parse(target).authority.Some? || Parse(target).scheme.Some? || original.None? ==> u == Parse(target)
    ensures var r := Parse(target);
      r.authority.None? && r.scheme.None? && original.Some? ==>
        u.scheme == original.value.scheme && u.authority == original.value.authority
        && u.fragment == r.fragment && (r.query.Some? ==> u.query == r.query)
  {
    var r := Parse(target);
    if r.authority.Some? || original.None? then r else ResolveReference(r, original.value)
  }

  /** The commands that end in the empty echo callback: all but the page
    * state, status, authorization and once/watch commands. `app.info`'s own
    * answer is followed by the echo. */
  predicate LegacyEchoes(tag: Tag) {
    tag in {AppInfo, LocationClearWatch, StampRallyQrCode, BrowseApp, BrowseInApp, AppDetect, AppReview,
            MapNavigate, SearchFocus}
  }

  /** The map itself is on screen: the page address has a query naming
    * none of the input pages. */
  predicate MainVisible(pageQuery: Option<string>) {
    pageQuery.Some? && !InputPageQuery(pageQuery.value)
  }

  class PMMainViewController {
    const mapSlug: string
    const loadAt: int
    const userId: Option<string>
    const secretKey: Option<string>
    const appStoreId: Option<string>

    var launchUrl: Option<string>
    var isFirstViewAppear: bool
    var originalUrl: Option<Uri>
    var isWebViewLoading: bool
    var hasWebReady: bool
    var isWebViewLoadErrorVisible: bool
    /** The token (start time) of the latest load. */
    var webViewLoadingAt: Option<int>
    /** The tokens of the timeouts not yet fired. */
    var pendingLoadTimeouts: multiset<int>
    var coverShown: bool
    var shouldFixedWebView: bool
    var isScrollEnabled: bool

    var isMeasuringLocation: bool
    var locationCallbackStatus: int
    var pendingFirstCallbacks: nat
    var lastHeading: Option<real>
    var locationAuthorizeRequestId: Option<string>
    var locationOnceRequestIds: seq<string>
    var locationWatchRequestIds: seq<string>

    var callbacks: seq<Callback>
    var pushes: seq<Sdk.Push>
    var effects: seq<Effect>

    static function LocationSessions(log: seq<Effect>): int {
      Balance(log, StartUpdatingLocation, StopUpdatingLocation)
    }

    /** Load-error alerts put on screen and not yet answered. */
    static function ErrorAlertsShown(log: seq<Effect>): int {
      Balance(log, PresentLoadError, ReloadPage)
    }

    /** One location session runs exactly while `isMeasuringLocation`, and
      * one load-error alert is on screen exactly while
      * `isWebViewLoadErrorVisible`, never two. */
    predicate Valid()
      reads this`effects, this`isMeasuringLocation, this`isWebViewLoadErrorVisible, this`locationCallbackStatus
    {
      LocationSessions(effects) == (if isMeasuringLocation then 1 else 0)
      && ErrorAlertsShown(effects) == (if isWebViewLoadErrorVisible then 1 else 0)
      && 0 <= locationCallbackStatus <= 2
    }

    /** The screen after `viewDidLoad` (which stops the application when
      * the slug is empty); the cover is opaque. */
    constructor (mapSlug: string, loadAt: int, userId: Option<string>, secretKey: Option<string>,
                 appStoreId: Option<string>, launchUrl: Option<string>)
      requires mapSlug != ""
      ensures Valid()
      ensures this.mapSlug == mapSlug && this.loadAt == loadAt && this.userId == userId
      ensures this.secretKey == secretKey && this.appStoreId == appStoreId && this.launchUrl == launchUrl
      ensures isFirstViewAppear && originalUrl.None? && coverShown && isScrollEnabled && !shouldFixedWebView
      ensures !isWebViewLoading && !hasWebReady && !isWebViewLoadErrorVisible
      ensures webViewLoadingAt.None? && pendingLoadTimeouts == multiset{}
      ensures !isMeasuringLocation && locationCallbackStatus == 0 && pendingFirstCallbacks == 0 && lastHeading.None?
      ensures locationAuthorizeRequestId.None? && locationOnceRequestIds == [] && locationWatchRequestIds == []
      ensures callbacks == [] && pushes == [] && effects == []
    {
      this.mapSlug := mapSlug;
      this.loadAt := loadAt;
      this.userId := userId;
      this.secretKey := secretKey;
      this.appStoreId := appStoreId;
      this.launchUrl := launchUrl;
      isFirstViewAppear := true;
      originalUrl := None;
      isWebViewLoading := false;
      hasWebReady := false;
      isWebViewLoadErrorVisible := false;
      webViewLoadingAt := None;
      pendingLoadTimeouts := multiset{};
      coverShown := true;
      shouldFixedWebView := false;
      isScrollEnabled := true;
      isMeasuringLocation := false;
      locationCallbackStatus := 0;
      pendingFirstCallbacks := 0;
      lastHeading := None;
      locationAuthorizeRequestId := None;
      locationOnceRequestIds := [];
      locationWatchRequestIds := [];
      callbacks := [];
      pushes := [];
      effects := [];
    }

    method Emit(e: Effect)
      modifies this`effects
      ensures effects == old(effects) + [e]
      ensures LocationSessions(effects) == LocationSessions(old(effects)) + Sdk.Delta(e, StartUpdatingLocation, StopUpdatingLocation)
      ensures ErrorAlertsShown(effects) == ErrorAlertsShown(old(effects)) + Sdk.Delta(e, PresentLoadError, ReloadPage)
    {
      BalanceAppend(effects, e, StartUpdatingLocation, StopUpdatingLocation);
      BalanceAppend(effects, e, PresentLoadError, ReloadPage);
      effects := effects + [e];
    }

    /** An effect that starts or stops no location session and shows or
      * dismisses no error alert keeps the invariant. */
    method EmitOther(e: Effect)
      requires Valid() && e != StartUpdatingLocation && e != StopUpdatingLocation
      requires e != PresentLoadError && e != ReloadPage
      modifies this`effects
      ensures Valid() && effects == old(effects) + [e]
    {
      BalanceAppend(effects, e, StartUpdatingLocation, StopUpdatingLocation);
      BalanceAppend(effects, e, PresentLoadError, ReloadPage);
      effects := effects + [e];
    }

    /** Opens or closes the location session: the event is logged and the flag
      * follows it. */
    method SwitchLocation(on: bool)
      requires Valid() && isMeasuringLocation != on
      modifies this`effects, this`isMeasuringLocation
      ensures Valid() && isMeasuringLocation == on
      ensures effects == old(effects) + [if on then StartUpdatingLocation else StopUpdatingLocation]
    {
      var e := if on then StartUpdatingLocation else StopUpdatingLocation;
      BalanceAppend(effects, e, StartUpdatingLocation, StopUpdatingLocation);
      BalanceAppend(effects, e, PresentLoadError, ReloadPage);
      effects := effects + [e];
      isMeasuringLocation := on;
    }

    /** Opens or closes the load-error alert: the event is logged and the flag
      * follows it. */
    method SwitchErrorAlert(on: bool)
      requires Valid() && isWebViewLoadErrorVisible != on
      modifies this`effects, this`isWebViewLoadErrorVisible
      ensures Valid() && isWebViewLoadErrorVisible == on
      ensures effects == old(effects) + [if on then PresentLoadError else ReloadPage]
    {
      var e := if on then PresentLoadError else ReloadPage;
      BalanceAppend(effects, e, StartUpdatingLocation, StopUpdatingLocation);
      BalanceAppend(effects, e, PresentLoadError, ReloadPage);
      effects := effects + [e];
      isWebViewLoadErrorVisible := on;
    }

    // -------------------------------------------------------------------
    // Page
    // -------------------------------------------------------------------

    /** `viewDidAppear`: the first appearance loads the map address. */
    method ViewDidAppear(mapQuery: seq<Param>, safeAreaTop: int, safeAreaBottom: int)
      requires Valid()
      modifies this`isFirstViewAppear, this`originalUrl, this`effects
      ensures Valid() && !isFirstViewAppear
      ensures old(isFirstViewAppear) ==> (
        originalUrl == Some(PageAddress(mapSlug, mapQuery, safeAreaTop, safeAreaBottom))
        && effects == old(effects) + [LoadPage(originalUrl.value)])
      ensures !old(isFirstViewAppear) ==> originalUrl == old(originalUrl) && effects == old(effects)
    {
      if isFirstViewAppear {
        LoadPageAddress(PageAddress(mapSlug, mapQuery, safeAreaTop, safeAreaBottom));
      }
      isFirstViewAppear := false;
    }

    method LoadPageAddress(target: Uri)
      requires Valid()
      modifies this`originalUrl, this`effects
      ensures Valid()
      ensures originalUrl == Some(target) && effects == old(effects) + [LoadPage(target)]
    {
      originalUrl := Some(target);
      EmitOther(LoadPage(target));
    }

    /** `showWebViewLoadErrorMessage`: at most one alert; a load still
      * running is stopped first. */
    method ShowWebViewLoadErrorMessage()
      requires Valid()
      modifies this`isWebViewLoadErrorVisible, this`effects
      ensures Valid() && isWebViewLoadErrorVisible
      ensures old(isWebViewLoadErrorVisible) ==> effects == old(effects)
      ensures !old(isWebViewLoadErrorVisible) ==>
        effects == old(effects) + (if isWebViewLoading then [StopLoading] else []) + [PresentLoadError]
    {
      if isWebViewLoadErrorVisible {
        return;
      }
      if isWebViewLoading {
        EmitOther(StopLoading);
      }
      SwitchErrorAlert(true);
    }

    /** `didStartProvisionalNavigation`: before `web.ready`, the load
      * becomes the latest one and its timeout is set. */
    method DidStartProvisionalNavigation(now: int)
      modifies this`isWebViewLoading, this`webViewLoadingAt, this`pendingLoadTimeouts
      ensures hasWebReady ==> (isWebViewLoading == old(isWebViewLoading) && webViewLoadingAt == old(webViewLoadingAt)
        && pendingLoadTimeouts == old(pendingLoadTimeouts))
      ensures !hasWebReady ==> (isWebViewLoading && webViewLoadingAt == Some(now)
        && pendingLoadTimeouts == old(pendingLoadTimeouts) + multiset{now})
    {
      if hasWebReady {
        return;
      }
      isWebViewLoading := true;
      webViewLoadingAt := Some(now);
      pendingLoadTimeouts := pendingLoadTimeouts + multiset{now};
    }

    /** The timeout of the load started at `token` fires: it is an error
      * only when no later load started and `web.ready` has not come. */
    method LoadTimeoutFires(token: int)
      requires Valid() && token in pendingLoadTimeouts
      modifies this`pendingLoadTimeouts, this`isWebViewLoading, this`isWebViewLoadErrorVisible, this`effects
      ensures Valid()
      ensures pendingLoadTimeouts == old(pendingLoadTimeouts) - multiset{token}
      ensures webViewLoadingAt != Some(token) ==> (isWebViewLoading == old(isWebViewLoading)
        && isWebViewLoadErrorVisible == old(isWebViewLoadErrorVisible) && effects == old(effects))
      ensures webViewLoadingAt == Some(token) ==> !isWebViewLoading
      ensures webViewLoadingAt == Some(token) && hasWebReady ==> (effects == old(effects)
        && isWebViewLoadErrorVisible == old(isWebViewLoadErrorVisible))
      ensures |effects| > |old(effects)| ==> (webViewLoadingAt == Some(token) && !hasWebReady
        && !old(isWebViewLoadErrorVisible) && effects[|effects| - 1] == PresentLoadError)
    {
      if webViewLoadingAt == Some(token) {
        if hasWebReady {
          isWebViewLoading := false;
        } else {
          FailLoad();
        }
      }
      pendingLoadTimeouts := pendingLoadTimeouts - multiset{token};
    }

    /** A load that failed or timed out: the error alert is up and the
      * load is no longer tracked. */
    method FailLoad()
      requires Valid()
      modifies this`isWebViewLoading, this`isWebViewLoadErrorVisible, this`effects
      ensures Valid() && !isWebViewLoading && isWebViewLoadErrorVisible
      ensures effects == old(effects) + (if old(isWebViewLoadErrorVisible) then []
        else (if old(isWebViewLoading) then [StopLoading] else []) + [PresentLoadError])
    {
      ShowWebViewLoadErrorMessage();
      isWebViewLoading := false;
    }

    /** `didFailProvisionalNavigation`: a tracked load that fails is an
      * error. */
    method DidFailProvisionalNavigation()
      requires Valid()
      modifies this`isWebViewLoading, this`isWebViewLoadErrorVisible, this`effects
      ensures Valid() && !isWebViewLoading
      ensures !old(isWebViewLoading) ==> (effects == old(effects)
        && isWebViewLoadErrorVisible == old(isWebViewLoadErrorVisible))
      ensures old(isWebViewLoading) ==> isWebViewLoadErrorVisible
    {
      if isWebViewLoading {
        FailLoad();
      }
    }

    /** `didFinish`. */
    method DidFinish()
      modifies this`isWebViewLoading
      ensures !isWebViewLoading
    {
      isWebViewLoading := false;
    }

    /** `showCoverImageView`: an image not shown fades in. */
    method ShowCoverImageView()
      modifies this`coverShown, this`effects
      ensures coverShown
      ensures effects == old(effects) + (if old(coverShown) then [] else [ShowCover])
      ensures LocationSessions(effects) == LocationSessions(old(effects)) && ErrorAlertsShown(effects) == ErrorAlertsShown(old(effects))
    {
      if !coverShown {
        Emit(ShowCover);
        coverShown := true;
      }
    }

    /** `hideCoverImageView`: a shown image fades out after what is left of
      * the first second. */
    method HideCoverImageView(now: int)
      modifies this`coverShown, this`effects
      ensures !coverShown
      ensures effects == old(effects)
        + (if old(coverShown) then [HideCover(RemainingDelay(Sdk.CoverMinimum, now - loadAt))] else [])
      ensures LocationSessions(effects) == LocationSessions(old(effects)) && ErrorAlertsShown(effects) == ErrorAlertsShown(old(effects))
    {
      if coverShown {
        Emit(HideCover(RemainingDelay(Sdk.CoverMinimum, now - loadAt)));
        coverShown := false;
      }
    }

    /** The alert's reload button: the alert is gone, the cover shows and
      * the page reloads. */
    method OnReloadChosen()
      requires Valid() && isWebViewLoadErrorVisible
      modifies this`isWebViewLoadErrorVisible, this`coverShown, this`effects
      ensures Valid() && !isWebViewLoadErrorVisible && coverShown
      ensures effects == old(effects) + (if old(coverShown) then [] else [ShowCover]) + [ReloadPage]
    {
      ShowCoverImageView();
      SwitchErrorAlert(false);
    }

    /** `keyboardWillShow`: over the map itself, the page stops scrolling
      * and stays fixed; elsewhere nothing changes. */
    method KeyboardWillShow(pageQuery: Option<string>)
      modifies this`isScrollEnabled, this`shouldFixedWebView
      ensures MainVisible(pageQuery) ==> !isScrollEnabled && shouldFixedWebView
      ensures !MainVisible(pageQuery) ==> (isScrollEnabled == old(isScrollEnabled)
        && shouldFixedWebView == old(shouldFixedWebView))
    {
      if MainVisible(pageQuery) {
        isScrollEnabled := false;
        shouldFixedWebView := true;
      }
    }

    /** `keyboardWillHide`: the page scrolls again. */
    method KeyboardWillHide()
      modifies this`isScrollEnabled, this`shouldFixedWebView
      ensures isScrollEnabled && !shouldFixedWebView
    {
      shouldFixedWebView := false;
      isScrollEnabled := true;
    }

    /** `scrollViewDidScroll`: a fixed page is put back to the top. */
    method ScrollViewDidScroll()
      requires Valid()
      modifies this`effects
      ensures Valid()
      ensures effects == old(effects) + (if shouldFixedWebView then [ResetContentOffset] else [])
    {
      if shouldFixedWebView {
        EmitOther(ResetContentOffset);
      }
    }

    /** `decidePolicyFor`: as in the SDK screen, without a delegate. */
    method DecidePolicyFor(request: Option<Uri>, linkActivated: bool, canOpen: bool, now: int,
                           status: ClAuthorizationStatus)
      returns (allow: bool)
      requires Valid()
      modifies this
      ensures Valid()
      ensures allow <==> request.Some? && request.value.scheme != Some("command") && !linkActivated
      ensures request.Some? && request.value.scheme != Some("command") ==> (callbacks == old(callbacks)
        && effects == old(effects)
          + (if !linkActivated then []
             else if Sdk.IsWebScheme(request.value) then [PresentSafari(request.value)]
             else if canOpen then [OpenUrl(request.value)]
             else []))
      ensures request.None? ==> unchanged(this)
    {
      if request.None? {
        return false;
      }
      var u := request.value;
      if u.scheme != Some("command") {
        if linkActivated {
          if Sdk.IsWebScheme(u) {
            EmitOther(PresentSafari(u));
          } else if canOpen {
            EmitOther(OpenUrl(u));
          }
          return false;
        }
        return true;
      }
      RunCommand(u, canOpen, now, status);
      return false;
    }

    // -------------------------------------------------------------------
    // Commands
    // -------------------------------------------------------------------

    method CommandWebReady(id: string, now: int)
      requires Valid()
      modifies this`isWebViewLoading, this`hasWebReady, this`coverShown, this`launchUrl, this`callbacks,
        this`effects
      ensures Valid()
      ensures hasWebReady && !isWebViewLoading && !coverShown && launchUrl.None?
      ensures callbacks == old(callbacks) + [Callback(WebReady, id, LaunchArgs(old(launchUrl)))]
      ensures effects == old(effects)
        + (if old(coverShown) then [HideCover(RemainingDelay(Sdk.CoverMinimum, now - loadAt))] else [])
    {
      isWebViewLoading := false;
      hasWebReady := true;
      HideCoverImageView(now);
      var args := LaunchArgs(launchUrl);
      launchUrl := None;
      callbacks := callbacks + [Callback(WebReady, id, args)];
    }

    method CommandWebWillReload(id: string)
      requires Valid()
      modifies this`hasWebReady, this`coverShown, this`callbacks, this`effects
      ensures Valid()
      ensures !hasWebReady && coverShown
      ensures callbacks == old(callbacks) + [Callback(WebWillReload, id, map[])]
      ensures effects == old(effects) + (if old(coverShown) then [] else [ShowCover])
    {
      hasWebReady := false;
      ShowCoverImageView();
      callbacks := callbacks + [Callback(WebWillReload, id, map[])];
    }

    /** `location.authorize`: an undetermined status prompts and keeps the
      * id for the user's choice; any other is answered at once. */
    method CommandLocationAuthorize(id: string, status: ClAuthorizationStatus)
      requires Valid()
      modifies this`locationAuthorizeRequestId, this`callbacks, this`effects
      ensures Valid()
      ensures status == ClNotDetermined ==> (locationAuthorizeRequestId == Some(id) && callbacks == old(callbacks)
        && effects == old(effects) + [RequestWhenInUseAuthorization])
      ensures status != ClNotDetermined ==> (locationAuthorizeRequestId == old(locationAuthorizeRequestId)
        && effects == old(effects)
        && callbacks == old(callbacks) + [Callback(LocationAuthorize, id, Sdk.StatusAnswer(status))])
    {
      if status == ClNotDetermined {
        locationAuthorizeRequestId := Some(id);
        EmitOther(RequestWhenInUseAuthorization);
      } else {
        callbacks := callbacks + [Callback(LocationAuthorize, id, Sdk.StatusAnswer(status))];
      }
    }

    /** `browse.app` / `browse.inapp` with a `url`: `browse.app` opens it
      * in another application when one can; `browse.inapp` opens a
      * shared-cookie link in the web view screen and any other in Safari. */
    method CommandWebBrowse(tag: Tag, target: Uri, shared: bool, canOpen: bool)
      requires Valid() && (tag == BrowseApp || tag == BrowseInApp)
      modifies this`effects
      ensures Valid()
      ensures effects == old(effects)
        + (if tag == BrowseApp then (if canOpen then [OpenUrl(target)] else [])
           else if shared then [PresentWebViewController(target)]
           else [PresentSafari(target)])
    {
      if tag == BrowseApp {
        if canOpen {
          EmitOther(OpenUrl(target));
        }
      } else if shared {
        EmitOther(PresentWebViewController(target));
      } else {
        EmitOther(PresentSafari(target));
      }
    }

    method OpenOther(target: Uri)
      requires Valid()
      modifies this`effects
      ensures Valid()
      ensures effects == old(effects) + [OpenUrl(target)]
    {
      EmitOther(OpenUrl(target));
    }

    /** The location commands. */
    method DispatchLocationCommand(tag: Tag, id: string, status: ClAuthorizationStatus)
      requires Valid() && tag in {LocationStatus, LocationAuthorize, LocationOnce, LocationWatch, LocationClearWatch}
      modifies this`locationAuthorizeRequestId, this`locationOnceRequestIds, this`locationWatchRequestIds,
        this`isMeasuringLocation, this`locationCallbackStatus, this`lastHeading, this`callbacks, this`effects
      ensures Valid()
      ensures tag == LocationStatus ==> callbacks == old(callbacks) + [Callback(LocationStatus, id, Sdk.StatusAnswer(status))]
      ensures tag == LocationClearWatch ==> (locationWatchRequestIds == [] && callbacks == old(callbacks)
        && (locationOnceRequestIds == [] ==> !isMeasuringLocation))
      ensures tag == LocationOnce && status == ClDenied ==> (locationOnceRequestIds == []
        && callbacks == old(callbacks)
          + Broadcast(LocationOnce, old(locationOnceRequestIds) + [id], LocationWatch, old(locationWatchRequestIds),
              Sdk.LocationReportArgs(None, None, false, status)))
      ensures tag == LocationWatch ==> locationWatchRequestIds == old(locationWatchRequestIds) + [id]
      ensures tag == LocationWatch && IsClAuthorized(status) ==> (isMeasuringLocation && callbacks == old(callbacks))
      ensures tag == LocationOnce && (IsClAuthorized(status) || status == ClNotDetermined) ==> (
        locationOnceRequestIds == old(locationOnceRequestIds) + [id] && callbacks == old(callbacks))
      ensures tag == LocationOnce && IsClAuthorized(status) ==> (isMeasuringLocation
        && effects == old(effects) + (if old(isMeasuringLocation) then [RequestLocation] else [StartUpdatingLocation]))
      ensures tag in {LocationOnce, LocationWatch} && status == ClNotDetermined ==> (callbacks == old(callbacks)
        && effects == old(effects) + [RequestWhenInUseAuthorization] && isMeasuringLocation == old(isMeasuringLocation))
    {
      if tag == LocationStatus {
        callbacks := callbacks + [Callback(LocationStatus, id, Sdk.StatusAnswer(status))];
      } else if tag == LocationAuthorize {
        CommandLocationAuthorize(id, status);
      } else if tag == LocationOnce {
        locationOnceRequestIds := locationOnceRequestIds + [id];
        StartLocationRequest(true, status);
      } else if tag == LocationWatch {
        locationWatchRequestIds := locationWatchRequestIds + [id];
        StartLocationRequest(false, status);
      } else {
        locationWatchRequestIds := [];
        StopLocationRequestIfNoRequest();
      }
    }

    /** The command-specific part of `runCommand`. */
    method Dispatch(tag: Tag, id: string, query: map<string, string>, canOpen: bool, now: int,
                    status: ClAuthorizationStatus)
      requires Valid()
      modifies this
      ensures Valid()
      ensures LegacyEchoes(tag) && tag != AppInfo ==> callbacks == old(callbacks)
      ensures tag == AppInfo ==> callbacks == old(callbacks) + [Callback(AppInfo, id, AppInfoArgs(userId, secretKey))]
      ensures tag == SearchFocus ==> shouldFixedWebView
      ensures tag == LocationStatus ==> callbacks == old(callbacks) + [Callback(LocationStatus, id, Sdk.StatusAnswer(status))]
      ensures tag == LocationWatch ==> locationWatchRequestIds == old(locationWatchRequestIds) + [id]
      ensures tag == LocationOnce && (IsClAuthorized(status) || status == ClNotDetermined) ==>
        locationOnceRequestIds == old(locationOnceRequestIds) + [id]
      ensures tag in {LocationOnce, LocationWatch} && IsClAuthorized(status) ==> isMeasuringLocation
    {
      if tag in {LocationStatus, LocationAuthorize, LocationOnce, LocationWatch, LocationClearWatch} {
        DispatchLocationCommand(tag, id, status);
      } else {
        DispatchPageCommand(tag, id, query, canOpen, now);
      }
    }

    /** The commands other than the location ones. */
    method DispatchPageCommand(tag: Tag, id: string, query: map<string, string>, canOpen: bool, now: int)
      requires Valid() && tag !in {LocationStatus, LocationAuthorize, LocationOnce, LocationWatch, LocationClearWatch}
      modifies this
      ensures Valid()
      ensures LegacyEchoes(tag) && tag != AppInfo ==> callbacks == old(callbacks)
      ensures tag == AppInfo ==> callbacks == old(callbacks) + [Callback(AppInfo, id, AppInfoArgs(userId, secretKey))]
      ensures tag == SearchFocus ==> shouldFixedWebView
    {
      if tag == AppInfo {
        callbacks := callbacks + [Callback(AppInfo, id, AppInfoArgs(userId, secretKey))];
      } else if tag == WebReady {
        CommandWebReady(id, now);
      } else if tag == WebWillReload {
        CommandWebWillReload(id);
      } else if tag in {BrowseApp, BrowseInApp, AppReview, MapNavigate} {
        DispatchLinkCommand(tag, query, canOpen);
      } else if tag == SearchFocus {
        shouldFixedWebView := true;
      }
    }

    /** The commands that open a link; none answers for itself. */
    method DispatchLinkCommand(tag: Tag, query: map<string, string>, canOpen: bool)
      requires Valid() && tag in {BrowseApp, BrowseInApp, AppReview, MapNavigate}
      modifies this`effects
      ensures Valid()
      ensures tag == MapNavigate && "url" in query ==> effects == old(effects) + [OpenUrl(Parse(query["url"]))]
      ensures tag == AppReview ==>
        effects == old(effects) + (if appStoreId.Some? then [OpenUrl(Sdk.ReviewUri(appStoreId.value))] else [])
    {
      if tag == BrowseApp || tag == BrowseInApp {
        if "url" in query {
          var shared := "sharedCookie" in query && query["sharedCookie"] == "true";
          CommandWebBrowse(tag, BrowseTarget(query["url"], originalUrl), shared, canOpen);
        }
      } else if tag == AppReview {
        if appStoreId.Some? {
          OpenOther(Sdk.ReviewUri(appStoreId.value));
        }
      } else if "url" in query {
        OpenOther(Parse(query["url"]));
      }
    }

    /** `runCommand`: nothing happens for a host outside the fifteen tags
      * or without `requestId`; otherwise the command runs, and the echo
      * follows exactly when `LegacyEchoes` says so. */
    method RunCommand(u: Uri, canOpen: bool, now: int, status: ClAuthorizationStatus)
      requires Valid()
      modifies this
      ensures Valid()
      ensures IosRequest(IosLegacyTags, u).None? ==> unchanged(this)
      ensures var req := IosRequest(IosLegacyTags, u);
        req.Some? && req.value.tag != AppInfo && LegacyEchoes(req.value.tag) ==>
          callbacks == old(callbacks) + [Callback(req.value.tag, req.value.requestId, map[])]
      ensures var req := IosRequest(IosLegacyTags, u);
        req.Some? && req.value.tag == AppInfo ==>
          callbacks == old(callbacks) + [Callback(AppInfo, req.value.requestId, AppInfoArgs(userId, secretKey)),
                                         Callback(AppInfo, req.value.requestId, map[])]
      ensures var req := IosRequest(IosLegacyTags, u);
        req.Some? && req.value.tag == LocationWatch ==>
          locationWatchRequestIds == old(locationWatchRequestIds) + [req.value.requestId]
      ensures var req := IosRequest(IosLegacyTags, u);
        req.Some? && req.value.tag == LocationOnce && (IsClAuthorized(status) || status == ClNotDetermined) ==>
          locationOnceRequestIds == old(locationOnceRequestIds) + [req.value.requestId]
      ensures var req := IosRequest(IosLegacyTags, u);
        req.Some? && req.value.tag in {LocationOnce, LocationWatch} && IsClAuthorized(status) ==> isMeasuringLocation
    {
      var req := IosRequest(IosLegacyTags, u);
      if req.None? {
        return;
      }
      var query := DictionaryFromQuery(u);
      RunDecoded(req.value.tag, req.value.requestId, query, canOpen, now, status);
    }

    /** A decoded command runs, followed by its echo. */
    method RunDecoded(tag: Tag, id: string, query: map<string, string>, canOpen: bool, now: int,
                      status: ClAuthorizationStatus)
      requires Valid()
      modifies this
      ensures Valid()
      ensures tag != AppInfo && LegacyEchoes(tag) ==> callbacks == old(callbacks) + [Callback(tag, id, map[])]
      ensures tag == AppInfo ==>
        callbacks == old(callbacks) + [Callback(AppInfo, id, AppInfoArgs(userId, secretKey)), Callback(AppInfo, id, map[])]
      ensures tag == LocationWatch ==> locationWatchRequestIds == old(locationWatchRequestIds) + [id]
      ensures tag == LocationOnce && (IsClAuthorized(status) || status == ClNotDetermined) ==>
        locationOnceRequestIds == old(locationOnceRequestIds) + [id]
      ensures tag in {LocationOnce, LocationWatch} && IsClAuthorized(status) ==> isMeasuringLocation
    {
      Dispatch(tag, id, query, canOpen, now, status);
      if LegacyEchoes(tag) {
        callbacks := callbacks + [Callback(tag, id, map[])];
      }
    }

    /** `pushLaunchURL`: as in the SDK screen. */
    method PushLaunchUrl(url: string, presenting: bool)
      requires Valid()
      modifies this`launchUrl, this`pushes, this`effects
      ensures Valid()
      ensures !hasWebReady ==> (launchUrl == Some(url) && pushes == old(pushes) && effects == old(effects))
      ensures hasWebReady ==> (launchUrl == old(launchUrl)
        && pushes == old(pushes) + [Sdk.Push("app.link", map["url" := Text(url)])]
        && effects == old(effects) + (if presenting then [DismissPresented] else []))
    {
      if !hasWebReady {
        launchUrl := Some(url);
        return;
      }
      if presenting {
        EmitOther(DismissPresented);
      }
      pushes := pushes + [Sdk.Push("app.link", map["url" := Text(url)])];
    }

    // -------------------------------------------------------------------
    // Location
    // -------------------------------------------------------------------

    /** `locationCommandCallback`: the same answer, now, to every once id
      * and then every watch id; the once ids are done and the session
      * stops when no id is left. */
    method LocationCommandCallback(location: Option<Sdk.Coordinate>, heading: Option<real>, hasError: bool,
                                   status: ClAuthorizationStatus)
      requires Valid()
      modifies this`callbacks, this`locationOnceRequestIds, this`isMeasuringLocation, this`effects
      ensures Valid()
      ensures callbacks == old(callbacks)
        + Broadcast(LocationOnce, old(locationOnceRequestIds), LocationWatch, locationWatchRequestIds,
            Sdk.LocationReportArgs(location, heading, hasError, status))
      ensures locationOnceRequestIds == []
      ensures isMeasuringLocation == (old(isMeasuringLocation) && locationWatchRequestIds != [])
      ensures effects == old(effects)
        + (if old(isMeasuringLocation) && locationWatchRequestIds == [] then [StopUpdatingLocation] else [])
    {
      var args := Sdk.LocationReportArgs(location, heading, hasError, status);
      var sent := BroadcastCallbacks(LocationOnce, locationOnceRequestIds, LocationWatch, locationWatchRequestIds,
                                     args);
      callbacks := callbacks + sent;
      locationOnceRequestIds := [];
      StopLocationRequestIfNoRequest();
    }

    /** The authorized branch of `startLocationRequest`. */
    method StartLocationSession(isOnce: bool)
      requires Valid()
      modifies this`effects, this`isMeasuringLocation, this`locationCallbackStatus, this`lastHeading
      ensures Valid() && isMeasuringLocation
      ensures old(isMeasuringLocation) ==> (locationCallbackStatus == old(locationCallbackStatus)
        && lastHeading == old(lastHeading) && effects == old(effects) + (if isOnce then [RequestLocation] else []))
      ensures !old(isMeasuringLocation) ==> (locationCallbackStatus == 0 && lastHeading.None?
        && effects == old(effects) + [StartUpdatingLocation])
    {
      if isMeasuringLocation {
        if isOnce {
          EmitOther(RequestLocation);
        }
        return;
      }
      locationCallbackStatus := 0;
      lastHeading := None;
      SwitchLocation(true);
    }

    /** `startLocationRequest`: an undetermined status only prompts; an
      * authorized one never starts a second session; any other is answered
      * at once without position, a denied one behind an alert offering the
      * settings, shown again on every request. */
    method StartLocationRequest(isOnce: bool, status: ClAuthorizationStatus)
      requires Valid()
      modifies this`effects, this`isMeasuringLocation, this`locationCallbackStatus, this`lastHeading,
        this`callbacks, this`locationOnceRequestIds
      ensures Valid()
      ensures status == ClNotDetermined ==> (effects == old(effects) + [RequestWhenInUseAuthorization]
        && callbacks == old(callbacks) && locationOnceRequestIds == old(locationOnceRequestIds)
        && isMeasuringLocation == old(isMeasuringLocation))
      ensures IsClAuthorized(status) ==> (isMeasuringLocation && callbacks == old(callbacks)
        && locationOnceRequestIds == old(locationOnceRequestIds))
      ensures IsClAuthorized(status) && !old(isMeasuringLocation) ==> (locationCallbackStatus == 0
        && effects == old(effects) + [StartUpdatingLocation])
      ensures IsClAuthorized(status) && old(isMeasuringLocation) ==> (locationCallbackStatus == old(locationCallbackStatus)
        && effects == old(effects) + (if isOnce then [RequestLocation] else []))
      ensures status != ClNotDetermined && !IsClAuthorized(status) ==> (locationOnceRequestIds == []
        && callbacks == old(callbacks)
          + Broadcast(LocationOnce, old(locationOnceRequestIds), LocationWatch, locationWatchRequestIds,
              Sdk.LocationReportArgs(None, None, false, status))
        && isMeasuringLocation == (old(isMeasuringLocation) && locationWatchRequestIds != []))
      ensures status == ClDenied ==> |effects| > |old(effects)| && effects[|old(effects)|] == PresentDeniedAlert
    {
      if status == ClNotDetermined {
        EmitOther(RequestWhenInUseAuthorization);
        return;
      }
      if IsClAuthorized(status) {
        StartLocationSession(isOnce);
        return;
      }
      if status == ClDenied {
        EmitOther(PresentDeniedAlert);
      }
      LocationCommandCallback(None, None, false, status);
    }

    /** The denied alert is answered: OK opens the settings. */
    method OnDeniedAlertAnswered(ok: bool)
      requires Valid()
      modifies this`effects
      ensures Valid()
      ensures effects == old(effects) + (if ok then [OpenSettings] else [])
    {
      if ok {
        EmitOther(OpenSettings);
      }
    }

    /** `stopLocationRequest`: idempotent; no session afterwards. */
    method StopLocationRequest()
      requires Valid()
      modifies this`isMeasuringLocation, this`effects
      ensures Valid() && !isMeasuringLocation
      ensures effects == old(effects) + (if old(isMeasuringLocation) then [StopUpdatingLocation] else [])
    {
      if !isMeasuringLocation {
        return;
      }
      SwitchLocation(false);
    }

    /** `stopLocationRequestIfNoRequest`. */
    method StopLocationRequestIfNoRequest()
      requires Valid()
      modifies this`isMeasuringLocation, this`effects
      ensures Valid()
      ensures isMeasuringLocation == (old(isMeasuringLocation) && (locationOnceRequestIds != [] || locationWatchRequestIds != []))
      ensures effects == old(effects) + (if old(isMeasuringLocation) && locationOnceRequestIds == []
        && locationWatchRequestIds == [] then [StopUpdatingLocation] else [])
    {
      if locationOnceRequestIds == [] && locationWatchRequestIds == [] {
        StopLocationRequest();
      }
    }

    /** `didChangeAuthorization`, location part: with ids pending, an
      * authorized status asks for the session again (as a once request
      * exactly when some watch id is pending, as written); a refusal stops
      * the session, answers every pending id without position and drops
      * the watch ids. */
    method AuthorizationChangedForLocation(status: ClAuthorizationStatus)
      requires Valid()
      modifies this`effects, this`isMeasuringLocation, this`locationCallbackStatus, this`lastHeading,
        this`callbacks, this`locationOnceRequestIds, this`locationWatchRequestIds
      ensures Valid()
      ensures (old(locationOnceRequestIds) == [] && old(locationWatchRequestIds) == []) || status == ClNotDetermined ==> (
        callbacks == old(callbacks) && effects == old(effects) && isMeasuringLocation == old(isMeasuringLocation)
        && locationOnceRequestIds == old(locationOnceRequestIds) && locationWatchRequestIds == old(locationWatchRequestIds))
      ensures (old(locationOnceRequestIds) != [] || old(locationWatchRequestIds) != []) && IsClAuthorized(status) ==> (
        isMeasuringLocation && callbacks == old(callbacks)
        && locationOnceRequestIds == old(locationOnceRequestIds) && locationWatchRequestIds == old(locationWatchRequestIds)
        && effects == old(effects) + (if old(isMeasuringLocation) then (if old(locationWatchRequestIds) != [] then [RequestLocation] else [])
                                      else [StartUpdatingLocation]))
      ensures ((old(locationOnceRequestIds) != [] || old(locationWatchRequestIds) != [])
        && status != ClNotDetermined && !IsClAuthorized(status)) ==> (
        !isMeasuringLocation && locationOnceRequestIds == [] && locationWatchRequestIds == []
        && callbacks == old(callbacks)
          + Broadcast(LocationOnce, old(locationOnceRequestIds), LocationWatch, old(locationWatchRequestIds),
              Sdk.LocationReportArgs(None, None, false, status)))
    {
      if locationOnceRequestIds != [] || locationWatchRequestIds != [] {
        if IsClAuthorized(status) {
          StartLocationRequest(locationWatchRequestIds != [], status);
        } else if status != ClNotDetermined {
          StopLocationRequest();
          LocationCommandCallback(None, None, false, status);
          locationWatchRequestIds := [];
        }
      }
    }

    /** `didChangeAuthorization`: the location part, then, for any status
      * but undetermined, the pending authorize id is answered and
      * forgotten. */
    method DidChangeAuthorization(status: ClAuthorizationStatus)
      requires Valid()
      modifies this`effects, this`isMeasuringLocation, this`locationCallbackStatus, this`lastHeading,
        this`callbacks, this`locationOnceRequestIds, this`locationWatchRequestIds, this`locationAuthorizeRequestId
      ensures Valid()
      ensures status == ClNotDetermined ==> (locationAuthorizeRequestId == old(locationAuthorizeRequestId)
        && callbacks == old(callbacks) && effects == old(effects))
      ensures status != ClNotDetermined ==> locationAuthorizeRequestId.None?
      ensures status != ClNotDetermined && old(locationAuthorizeRequestId).Some? ==> (|callbacks| > 0
        && callbacks[|callbacks| - 1]
          == Callback(LocationAuthorize, old(locationAuthorizeRequestId).value, Sdk.StatusAnswer(status)))
    {
      AuthorizationChangedForLocation(status);
      if status != ClNotDetermined && locationAuthorizeRequestId.Some? {
        callbacks := callbacks
          + [Callback(LocationAuthorize, locationAuthorizeRequestId.value, Sdk.StatusAnswer(status))];
        locationAuthorizeRequestId := None;
      }
    }

    /** `didUpdateLocations`: the first position of a session is answered
      * after a delay, positions during the delay are dropped, and later
      * ones are answered at once. */
    method DidUpdateLocations(location: Option<Sdk.Coordinate>, heading: Option<real>, status: ClAuthorizationStatus)
      requires Valid()
      modifies this`locationCallbackStatus, this`pendingFirstCallbacks, this`callbacks, this`locationOnceRequestIds,
        this`isMeasuringLocation, this`effects
      ensures Valid()
      ensures old(locationCallbackStatus) != 2 ==> (locationCallbackStatus == 1 && callbacks == old(callbacks)
        && pendingFirstCallbacks == old(pendingFirstCallbacks) + (if old(locationCallbackStatus) == 0 then 1 else 0))
      ensures old(locationCallbackStatus) == 2 ==> (locationCallbackStatus == 2 && locationOnceRequestIds == []
        && pendingFirstCallbacks == old(pendingFirstCallbacks)
        && callbacks == old(callbacks)
          + Broadcast(LocationOnce, old(locationOnceRequestIds), LocationWatch, locationWatchRequestIds,
              Sdk.LocationReportArgs(location, if heading.Some? then heading else lastHeading, false, status)))
    {
      if locationCallbackStatus == 0 {
        locationCallbackStatus := 1;
        pendingFirstCallbacks := pendingFirstCallbacks + 1;
      } else if locationCallbackStatus == 2 {
        LocationCommandCallback(location, if heading.Some? then heading else lastHeading, false, status);
      }
    }

    /** The delayed first answer; the gate opens. */
    method FirstLocationCallbackFires(location: Option<Sdk.Coordinate>, heading: Option<real>,
                                      status: ClAuthorizationStatus)
      requires Valid() && pendingFirstCallbacks > 0
      modifies this`locationCallbackStatus, this`pendingFirstCallbacks, this`callbacks, this`locationOnceRequestIds,
        this`isMeasuringLocation, this`effects
      ensures Valid()
      ensures pendingFirstCallbacks == old(pendingFirstCallbacks) - 1 && locationCallbackStatus == 2
      ensures locationOnceRequestIds == []
      ensures callbacks == old(callbacks)
        + Broadcast(LocationOnce, old(locationOnceRequestIds), LocationWatch, locationWatchRequestIds,
            Sdk.LocationReportArgs(location, if heading.Some? then heading else lastHeading, false, status))
    {
      pendingFirstCallbacks := pendingFirstCallbacks - 1;
      LocationCommandCallback(location, if heading.Some? then heading else lastHeading, false, status);
      locationCallbackStatus := 2;
    }

    /** `didUpdateHeading`: kept, and answered once the gate is open. */
    method DidUpdateHeading(location: Option<Sdk.Coordinate>, heading: real, status: ClAuthorizationStatus)
      requires Valid()
      modifies this`lastHeading, this`callbacks, this`locationOnceRequestIds, this`isMeasuringLocation, this`effects
      ensures Valid()
      ensures lastHeading == Some(heading)
      ensures locationCallbackStatus != 2 ==> callbacks == old(callbacks)
      ensures locationCallbackStatus == 2 ==> (locationOnceRequestIds == []
        && callbacks == old(callbacks)
          + Broadcast(LocationOnce, old(locationOnceRequestIds), LocationWatch, locationWatchRequestIds,
              Sdk.LocationReportArgs(location, Some(heading), false, status)))
    {
      lastHeading := Some(heading);
      if locationCallbackStatus == 2 {
        LocationCommandCallback(location, Some(heading), false, status);
      }
    }

    /** `didFailWithError`: the session stops, every pending id (once ids
      * first, then watch ids) hears the error, and no id is left. */
    method DidFailWithError(status: ClAuthorizationStatus)
      requires Valid()
      modifies this`isMeasuringLocation, this`effects, this`callbacks, this`locationOnceRequestIds,
        this`locationWatchRequestIds
      ensures Valid() && !isMeasuringLocation
      ensures locationOnceRequestIds == [] && locationWatchRequestIds == []
      ensures callbacks == old(callbacks)
        + Broadcast(LocationOnce, old(locationOnceRequestIds), LocationWatch, old(locationWatchRequestIds),
            Sdk.LocationReportArgs(None, None, true, status))
      ensures Recipients(callbacks[|old(callbacks)|..]) == old(locationOnceRequestIds) + old(locationWatchRequestIds)
      ensures effects == old(effects) + (if old(isMeasuringLocation) then [StopUpdatingLocation] else [])
    {
      StopLocationRequest();
      LocationCommandCallback(None, None, true, status);
      locationWatchRequestIds := [];
      assert callbacks[|old(callbacks)|..]
        == Broadcast(LocationOnce, old(locationOnceRequestIds), LocationWatch, old(locationWatchRequestIds),
             Sdk.LocationReportArgs(None, None, true, status));
    }

    // -------------------------------------------------------------------
    // Lifecycle
    // -------------------------------------------------------------------

    /** `didEnterBackgroundNotification`, observed from the first
      * `viewDidAppear` on: the session stops. */
    method DidEnterBackground()
      requires Valid() && !isFirstViewAppear
      modifies this`isMeasuringLocation, this`effects
      ensures Valid() && !isMeasuringLocation
      ensures effects == old(effects) + (if old(isMeasuringLocation) then [StopUpdatingLocation] else [])
    {
      StopLocationRequest();
    }

    /** `willEnterForegroundNotification`, observed from the first
      * `viewDidAppear` on: pending watch ids ask for the
      * session again. */
    method WillEnterForeground(status: ClAuthorizationStatus)
      requires Valid() && !isFirstViewAppear
      modifies this`effects, this`isMeasuringLocation, this`locationCallbackStatus, this`lastHeading,
        this`callbacks, this`locationOnceRequestIds
      ensures Valid()
      ensures locationWatchRequestIds == [] ==> (effects == old(effects) && callbacks == old(callbacks)
        && isMeasuringLocation == old(isMeasuringLocation))
      ensures locationWatchRequestIds != [] && IsClAuthorized(status) ==> isMeasuringLocation
    {
      if locationWatchRequestIds != [] {
        ghost var watches := locationWatchRequestIds;
        StartLocationRequest(false, status);
        assert locationWatchRequestIds == watches;
      }
    }
  }
}
