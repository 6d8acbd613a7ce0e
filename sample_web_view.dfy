// The sample library's web view (PmWebView of the sample platinumaps-sdk):
// a reduced bridge with nine commands and no native sessions. It keeps
// its own page-load bookkeeping: every load posts a timeout that raises
// the reload dialog only if no newer load has started and the page never
// said `web.ready`, and the dialog is never shown twice at once.
//
// The clock is a parameter; a posted timeout and the dialog's buttons are
// methods of their own that the platform calls later.
module SampleWebView {
  import opened Common
  import opened Uri
  import opened Protocol
  import opened Permissions
  import opened MapUrl
  import opened AndroidBridge

  /** The commands answered with the empty echo once handled: all but the
    * three that answer for themselves. */
  predicate Echoes(t: Tag) {
    t != AppInfo && t != WebReady && t != WebWillReload
  }

  class PmWebView {
    /** `context as? Activity` is not null. */
    const hasActivity: bool

    var originalUrl: Option<MapLink>
    var isWebViewLoading: bool
    /** The token of the latest load: its start time. */
    var webViewLoadingAt: Option<int>
    var hasWebReady: bool
    var isWebViewLoadErrorVisible: bool
    /** The reload dialog is on screen. */
    var reloadDialogOpen: bool
    /** The tokens of the posted timeouts (120 s after their load) that
      * have not fired yet. */
    var pendingLoadTimeouts: multiset<int>

    var playStoreId: Option<string>
    var appLinkUri: Option<string>
    var userId: Option<string>
    var secretKey: Option<string>
    var hasOpenLinkListener: bool

    var hasGeolocationCallback: bool
    var geolocationOrigin: Option<string>
    var activePermissionRequest: Option<seq<Resource>>

    var callbacks: seq<Callback>
    var effects: seq<Effect>

    /** An open reload dialog is always one the bridge knows to be
      * visible, so the bridge never raises a second one over it. */
    predicate Valid()
      reads this`isWebViewLoading, this`isWebViewLoadErrorVisible, this`reloadDialogOpen
    {
      DialogTracked(LoadErrors())
    }

    constructor (hasActivity: bool)
      ensures Valid()
      ensures this.hasActivity == hasActivity
      ensures originalUrl.None? && !isWebViewLoading && webViewLoadingAt.None? && !hasWebReady
      ensures !isWebViewLoadErrorVisible && !reloadDialogOpen && pendingLoadTimeouts == multiset{}
      ensures playStoreId.None? && appLinkUri.None? && userId.None? && secretKey.None?
      ensures !hasOpenLinkListener && !hasGeolocationCallback && geolocationOrigin.None?
      ensures activePermissionRequest.None?
      ensures callbacks == [] && effects == []
    {
      this.hasActivity := hasActivity;
      originalUrl := None;
      isWebViewLoading := false;
      webViewLoadingAt := None;
      hasWebReady := false;
      isWebViewLoadErrorVisible := false;
      reloadDialogOpen := false;
      pendingLoadTimeouts := multiset{};
      playStoreId := None;
      appLinkUri := None;
      userId := None;
      secretKey := None;
      hasOpenLinkListener := false;
      hasGeolocationCallback := false;
      geolocationOrigin := None;
      activePermissionRequest := None;
      callbacks := [];
      effects := [];
    }

    /** The public `playStoreId`, `appLinkUri`, `userId` and `secretKey`
      * properties, set by the host application. */
    method SetLaunchInfo(playStoreId: Option<string>, appLinkUri: Option<string>, userId: Option<string>,
                         secretKey: Option<string>)
      modifies this`playStoreId, this`appLinkUri, this`userId, this`secretKey
      ensures this.playStoreId == playStoreId && this.appLinkUri == appLinkUri
      ensures this.userId == userId && this.secretKey == secretKey
    {
      this.playStoreId := playStoreId;
      this.appLinkUri := appLinkUri;
      this.userId := userId;
      this.secretKey := secretKey;
    }

    /** `onOpenLinkListener = ...`. */
    method SetOnOpenLinkListener(present: bool)
      modifies this`hasOpenLinkListener
      ensures hasOpenLinkListener == present
    {
      hasOpenLinkListener := present;
    }

    // -------------------------------------------------------------------
    // Page loading
    // -------------------------------------------------------------------

    /** `openPlatinumaps(pagePath, mapQuery, safeAreaTop, safeAreaBottom)`:
      * builds the map address with `native=2` and loads it. */
    method OpenPlatinumaps(pagePath: string, mapQuery: Option<string>, safeAreaTop: int, safeAreaBottom: int,
                           now: int)
      modifies this`originalUrl, this`webViewLoadingAt, this`isWebViewLoading, this`pendingLoadTimeouts,
        this`effects
      ensures originalUrl == Some(SampleMapLink(pagePath, mapQuery, safeAreaTop, safeAreaBottom))
      ensures webViewLoadingAt == Some(now) && isWebViewLoading
      ensures pendingLoadTimeouts == old(pendingLoadTimeouts) + multiset{now}
      ensures effects == old(effects) + [LoadUrl(originalUrl.value)]
    {
      originalUrl := Some(SampleMapLink(pagePath, mapQuery, safeAreaTop, safeAreaBottom));
      LoadWebView(now);
    }

    /** `loadWebView`: loads the page address, if there is one, makes `now`
      * the token of the latest load and posts its timeout. */
    method LoadWebView(now: int)
      modifies this`webViewLoadingAt, this`isWebViewLoading, this`pendingLoadTimeouts, this`effects
      ensures originalUrl.None? ==> (webViewLoadingAt == old(webViewLoadingAt)
        && isWebViewLoading == old(isWebViewLoading) && pendingLoadTimeouts == old(pendingLoadTimeouts)
        && effects == old(effects))
      ensures originalUrl.Some? ==> (webViewLoadingAt == Some(now) && isWebViewLoading
        && pendingLoadTimeouts == old(pendingLoadTimeouts) + multiset{now}
        && effects == old(effects) + [LoadUrl(originalUrl.value)])
    {
      if originalUrl.Some? {
        webViewLoadingAt := Some(now);
        effects := effects + [LoadUrl(originalUrl.value)];
        isWebViewLoading := true;
        pendingLoadTimeouts := pendingLoadTimeouts + multiset{now};
      }
    }

    /** The timeout posted by the load with token `loadingAt` fires: it
      * counts only for the latest load. */
    method LoadTimeoutFires(loadingAt: int)
      requires Valid() && loadingAt in pendingLoadTimeouts
      modifies this`pendingLoadTimeouts, this`isWebViewLoading, this`isWebViewLoadErrorVisible,
        this`reloadDialogOpen, this`effects
      ensures Valid()
      ensures pendingLoadTimeouts == old(pendingLoadTimeouts) - multiset{loadingAt}
      ensures webViewLoadingAt != Some(loadingAt) ==> (isWebViewLoading == old(isWebViewLoading)
        && isWebViewLoadErrorVisible == old(isWebViewLoadErrorVisible)
        && reloadDialogOpen == old(reloadDialogOpen) && effects == old(effects))
      ensures webViewLoadingAt == Some(loadingAt) ==> (
        var o := LoadErrorStep(hasWebReady, hasActivity, old(LoadErrors()));
        LoadErrors() == o.after && effects == old(effects) + LoadErrorEffects(o))
    {
      pendingLoadTimeouts := pendingLoadTimeouts - multiset{loadingAt};
      if webViewLoadingAt != Some(loadingAt) {
        return;
      }
      ShowWebViewLoadErrorMessageIfNeeded();
    }

    /** The flags a load error works on. */
    function LoadErrors(): LoadErrorState
      reads this`isWebViewLoading, this`isWebViewLoadErrorVisible, this`reloadDialogOpen
    {
      LoadErrorState(isWebViewLoading, isWebViewLoadErrorVisible, reloadDialogOpen)
    }

    /** `showWebViewLoadErrorMessageIfNeeded`. */
    method ShowWebViewLoadErrorMessageIfNeeded()
      requires Valid()
      modifies this`isWebViewLoading, this`isWebViewLoadErrorVisible, this`reloadDialogOpen, this`effects
      ensures Valid()
      ensures (var o := LoadErrorStep(old(hasWebReady), hasActivity, old(LoadErrors()));
        LoadErrors() == o.after && effects == old(effects) + LoadErrorEffects(o))
    {
      if hasWebReady {
        return;
      }
      if isWebViewLoading {
        effects := effects + [StopLoading];
      }
      isWebViewLoading := false;
      if isWebViewLoadErrorVisible {
        return;
      }
      if hasActivity {
        effects := effects + [ShowReloadDialog];
        reloadDialogOpen := true;
        isWebViewLoadErrorVisible := true;
      }
    }

    /** `onReceivedError`. */
    method OnReceivedError()
      requires Valid()
      modifies this`isWebViewLoading, this`isWebViewLoadErrorVisible, this`reloadDialogOpen, this`effects
      ensures Valid()
      ensures (var o := LoadErrorStep(old(hasWebReady), hasActivity, old(LoadErrors()));
        LoadErrors() == o.after && effects == old(effects) + LoadErrorEffects(o))
    {
      ShowWebViewLoadErrorMessageIfNeeded();
    }

    /** `onPageFinished`. */
    method OnPageFinished()
      modifies this`isWebViewLoading
      ensures !isWebViewLoading
    {
      isWebViewLoading := false;
    }

    /** The reload button of the dialog: the dialog goes and the page
      * loads again. */
    method OnReloadChosen(now: int)
      requires Valid() && reloadDialogOpen
      modifies this`reloadDialogOpen, this`isWebViewLoadErrorVisible, this`webViewLoadingAt,
        this`isWebViewLoading, this`pendingLoadTimeouts, this`effects
      ensures Valid()
      ensures !reloadDialogOpen && !isWebViewLoadErrorVisible
      ensures originalUrl.Some? ==> (webViewLoadingAt == Some(now) && isWebViewLoading
        && pendingLoadTimeouts == old(pendingLoadTimeouts) + multiset{now}
        && effects == old(effects) + [LoadUrl(originalUrl.value)])
      ensures originalUrl.None? ==> (webViewLoadingAt == old(webViewLoadingAt)
        && isWebViewLoading == old(isWebViewLoading) && pendingLoadTimeouts == old(pendingLoadTimeouts)
        && effects == old(effects))
    {
      reloadDialogOpen := false;
      isWebViewLoadErrorVisible := false;
      LoadWebView(now);
    }

    /** The dialog is dismissed without its button (it is cancelable): the
      * visible flag stays set, so no reload dialog is raised again. */
    method OnReloadDialogCancelled()
      requires Valid() && reloadDialogOpen
      modifies this`reloadDialogOpen
      ensures Valid()
      ensures !reloadDialogOpen && isWebViewLoadErrorVisible
    {
      reloadDialogOpen := false;
    }

    // -------------------------------------------------------------------
    // Links
    // -------------------------------------------------------------------

    /** `openWebBrowseInApp`: a Custom Tab, only with an activity. */
    method OpenWebBrowseInApp(target: Uri)
      modifies this`effects
      ensures effects == old(effects) + (if hasActivity then [OpenInApp(target)] else [])
    {
      if hasActivity {
        effects := effects + [OpenInApp(target)];
      }
    }

    /** `openWebBrowseApp` / `openWebBrowseActivity`: handed to the link
      * listener, if one is set. */
    method OpenLinkWithListener(target: Uri, sharedCookie: bool)
      modifies this`effects
      ensures effects == old(effects) + (if hasOpenLinkListener then [OpenLink(target, sharedCookie)] else [])
    {
      if hasOpenLinkListener {
        effects := effects + [OpenLink(target, sharedCookie)];
      }
    }

    /** The link a browse command names, resolved against the page by
      * `parseBrowseUrl`: kept when it names a host or is a `tel` link,
      * otherwise rebuilt on the page's https://platinumaps.jp origin. */
    function BrowseTarget(u: Uri): (r: Option<Uri>)
      reads this`originalUrl
      ensures r.Some? ==> FirstValue(QueryItems(u), "url").Some?
      ensures (FirstValue(QueryItems(u), "url").Some? && originalUrl.Some?) ==> r.Some?
      ensures FirstValue(QueryItems(u), "url").Some? ==>
        var url := FirstValue(QueryItems(u), "url").value;
        (OpensAsWritten(url, true) ==> r == Some(AndroidParse(url)))
        && (!OpensAsWritten(url, true) && originalUrl.Some? ==>
              r.value.scheme == Some("https") && r.value.authority == Some("platinumaps.jp"))
    {
      match FirstValue(QueryItems(u), "url")
      case None => None
      case Some(url) =>
        ResolveBrowseUrl(url, if originalUrl.Some? then Some(LinkUri(originalUrl.value)) else None, true)
    }

    /** `commandWebBrowse`: `browse.app` and `map.navigate` hand the link to
      * the listener; `browse.inapp` opens it in a Custom Tab, or through
      * the listener with the shared cookie when `sharedCookie=true`. */
    method CommandWebBrowse(tag: Tag, u: Uri)
      modifies this`effects
      ensures BrowseTarget(u).None? || !(tag == BrowseApp || tag == MapNavigate || tag == BrowseInApp) ==>
        effects == old(effects)
      ensures BrowseTarget(u).Some? && (tag == BrowseApp || tag == MapNavigate) ==> (
        effects == old(effects) + (if hasOpenLinkListener then [OpenLink(BrowseTarget(u).value, false)] else []))
      ensures BrowseTarget(u).Some? && tag == BrowseInApp ==> (
        var shared := FirstValue(QueryItems(u), "sharedCookie") == Some("true");
        effects == old(effects)
          + (if shared then (if hasOpenLinkListener then [OpenLink(BrowseTarget(u).value, true)] else [])
             else (if hasActivity then [OpenInApp(BrowseTarget(u).value)] else [])))
    {
      var target := BrowseTarget(u);
      if target.Some? {
        if tag == BrowseApp || tag == MapNavigate {
          OpenLinkWithListener(target.value, false);
        } else if tag == BrowseInApp {
          var shared := FirstValue(QueryItems(u), "sharedCookie") == Some("true");
          if shared {
            OpenLinkWithListener(target.value, true);
          } else {
            OpenWebBrowseInApp(target.value);
          }
        }
      }
    }

    // -------------------------------------------------------------------
    // Commands
    // -------------------------------------------------------------------

    /** The command-specific part of `runCommand`: `app.info`, `web.ready`
      * and `web.willreload` answer for themselves; the browse commands
      * and `app.review` open their link; the rest do nothing. */
    method Dispatch(tag: Tag, id: string, u: Uri)
      modifies this`hasWebReady, this`appLinkUri, this`callbacks, this`effects
      ensures tag == AppInfo ==> (callbacks == old(callbacks) + [Callback(AppInfo, id, AppInfoArgs(userId, secretKey))]
        && hasWebReady == old(hasWebReady) && appLinkUri == old(appLinkUri) && effects == old(effects))
      ensures tag == WebReady ==> (hasWebReady && appLinkUri.None? && effects == old(effects)
        && callbacks == old(callbacks) + [Callback(WebReady, id, LaunchArgs(old(appLinkUri)))])
      ensures tag == WebWillReload ==> (!hasWebReady && appLinkUri == old(appLinkUri) && effects == old(effects)
        && callbacks == old(callbacks) + [Callback(WebWillReload, id, map[])])
      ensures Echoes(tag) ==> (callbacks == old(callbacks) && hasWebReady == old(hasWebReady)
        && appLinkUri == old(appLinkUri))
      ensures tag == AppReview ==> (effects == old(effects)
        + (if playStoreId.Some? && hasOpenLinkListener then [OpenLink(PlayStoreUri(playStoreId.value), false)]
           else []))
      ensures !(tag == BrowseApp || tag == BrowseInApp || tag == MapNavigate || tag == AppReview) ==>
        effects == old(effects)
    {
      if tag == AppInfo {
        callbacks := callbacks + [Callback(AppInfo, id, AppInfoArgs(userId, secretKey))];
      } else if tag == WebReady {
        hasWebReady := true;
        var args := LaunchArgs(appLinkUri);
        appLinkUri := None;
        callbacks := callbacks + [Callback(WebReady, id, args)];
      } else if tag == WebWillReload {
        hasWebReady := false;
        callbacks := callbacks + [Callback(WebWillReload, id, map[])];
      } else if tag == BrowseApp || tag == BrowseInApp || tag == MapNavigate {
        CommandWebBrowse(tag, u);
      } else if tag == AppReview {
        if playStoreId.Some? {
          OpenLinkWithListener(PlayStoreUri(playStoreId.value), false);
        }
      }
    }

    /** `runCommand`: 1 when the host names none of the nine tags or there
      * is no `requestId`, and then nothing happens; otherwise the command
      * runs, every command but the three that answer for themselves ends
      * with the empty echo, and 0. */
    method RunCommand(u: Uri) returns (r: int)
      modifies this`hasWebReady, this`appLinkUri, this`callbacks, this`effects
      ensures r == (if AndroidRequest(SampleWebViewTags, u).None? then 1 else 0)
      ensures AndroidRequest(SampleWebViewTags, u).None? ==> (callbacks == old(callbacks)
        && effects == old(effects) && hasWebReady == old(hasWebReady) && appLinkUri == old(appLinkUri))
      ensures var req := AndroidRequest(SampleWebViewTags, u);
        req.Some? && Echoes(req.value.tag) ==>
          callbacks == old(callbacks) + [Callback(req.value.tag, req.value.requestId, map[])]
      ensures var req := AndroidRequest(SampleWebViewTags, u);
        req.Some? && !Echoes(req.value.tag) ==>
          |callbacks| == |old(callbacks)| + 1 && callbacks[|callbacks| - 1].tag == req.value.tag
          && callbacks[|callbacks| - 1].requestId == req.value.requestId
    {
      var req := AndroidRequest(SampleWebViewTags, u);
      if req.None? {
        return 1;
      }
      var tag, id := req.value.tag, req.value.requestId;
      Dispatch(tag, id, u);
      if Echoes(tag) {
        callbacks := callbacks + [Callback(tag, id, map[])];
      }
      return 0;
    }

    /** `openRequest`: a `command` URI is always consumed (0); any other URI
      * goes to a Custom Tab once the page is ready (0) and is left to the
      * web view before that (1). */
    method OpenRequest(u: Uri) returns (r: int)
      modifies this`hasWebReady, this`appLinkUri, this`callbacks, this`effects
      ensures r == (if u.scheme == Some("command") || old(hasWebReady) then 0 else 1)
      ensures u.scheme != Some("command") ==> (callbacks == old(callbacks) && hasWebReady == old(hasWebReady)
        && effects == old(effects) + (if old(hasWebReady) && hasActivity then [OpenInApp(u)] else []))
      ensures u.scheme == Some("command") && AndroidRequest(SampleWebViewTags, u).None? ==> (
        callbacks == old(callbacks) && effects == old(effects) && hasWebReady == old(hasWebReady))
    {
      if u.scheme == Some("command") {
        var _ := RunCommand(u);
      } else if hasWebReady {
        OpenWebBrowseInApp(u);
      } else {
        return 1;
      }
      return 0;
    }

    /** `shouldOverrideUrlLoading`: the web view skips exactly the
      * navigations the bridge consumed. */
    method ShouldOverrideUrlLoading(request: Option<Uri>) returns (handled: bool)
      modifies this`hasWebReady, this`appLinkUri, this`callbacks, this`effects
      ensures handled == (request.Some? && (request.value.scheme == Some("command") || old(hasWebReady)))
      ensures request.None? ==> (callbacks == old(callbacks) && effects == old(effects))
    {
      if request.Some? {
        var r := OpenRequest(request.value);
        if r == 0 {
          return true;
        }
      }
      return false;
    }

    // -------------------------------------------------------------------
    // Chrome client
    // -------------------------------------------------------------------

    /** `onPermissionRequest` for a page's media request: denied without an
      * activity or when it needs no camera or microphone; granted at once
      * when both are granted; otherwise kept while the missing permissions
      * are asked for. */
    method OnPermissionRequest(request: Option<seq<Resource>>, cameraGranted: bool, audioGranted: bool)
      modifies this`activePermissionRequest, this`effects
      ensures request.None? ==> (effects == old(effects) && activePermissionRequest == old(activePermissionRequest))
      ensures request.Some? && (!hasActivity || MediaPermissions(request.value) == []) ==> (
        effects == old(effects) + [DenyResources] && activePermissionRequest == old(activePermissionRequest))
      ensures request.Some? && hasActivity && MediaPermissions(request.value) != [] ==> (
        var missing := Ungranted(MediaPermissions(request.value), cameraGranted, audioGranted);
        (missing == [] ==> (effects == old(effects) + [GrantResources(request.value)]
          && activePermissionRequest == old(activePermissionRequest)))
        && (missing != [] ==> (effects == old(effects) + [RequestPermissions(missing, PermissionRequestCode)]
          && activePermissionRequest == request)))
    {
      if request.None? {
        return;
      }
      var resources := request.value;
      if !hasActivity {
        effects := effects + [DenyResources];
        return;
      }
      var needed := MediaPermissions(resources);
      if needed != [] {
        var missing := Ungranted(needed, cameraGranted, audioGranted);
        if missing != [] {
          activePermissionRequest := request;
          effects := effects + [RequestPermissions(missing, PermissionRequestCode)];
        } else {
          effects := effects + [GrantResources(resources)];
        }
      } else {
        effects := effects + [DenyResources];
      }
    }

    /** `onGeolocationPermissionsShowPrompt`: refused without an activity;
      * otherwise the callback and origin are kept, and the page is allowed
      * at once when fine location is granted or after the prompt. */
    method OnGeolocationPermissionsShowPrompt(origin: Option<string>, hasCallback: bool, fineGranted: bool)
      modifies this`hasGeolocationCallback, this`geolocationOrigin, this`effects
      ensures !hasCallback ==> (effects == old(effects) && hasGeolocationCallback == old(hasGeolocationCallback)
        && geolocationOrigin == old(geolocationOrigin))
      ensures hasCallback && !hasActivity ==> (effects == old(effects) + [AnswerGeolocation(origin, false)]
        && hasGeolocationCallback == old(hasGeolocationCallback) && geolocationOrigin == old(geolocationOrigin))
      ensures hasCallback && hasActivity ==> (hasGeolocationCallback && geolocationOrigin == origin
        && effects == old(effects) + [if fineGranted then AnswerGeolocation(origin, true)
                                      else RequestPermissions([FineLocation], GeolocationPermissionRequestCode)])
    {
      if !hasCallback {
        return;
      }
      if !hasActivity {
        effects := effects + [AnswerGeolocation(origin, false)];
        return;
      }
      hasGeolocationCallback := true;
      geolocationOrigin := origin;
      if !fineGranted {
        effects := effects + [RequestPermissions([FineLocation], GeolocationPermissionRequestCode)];
      } else {
        effects := effects + [AnswerGeolocation(origin, true)];
      }
    }

    /** `handlePermissionResult`: the page's geolocation is allowed iff the
      * first result is a grant, a media request is granted iff every
      * result is; each slot is emptied after its answer, and any other
      * request code is ignored. */
    method HandlePermissionResult(requestCode: int, grants: seq<int>)
      modifies this`activePermissionRequest, this`hasGeolocationCallback, this`geolocationOrigin, this`effects
      ensures requestCode == GeolocationPermissionRequestCode ==> (
        !hasGeolocationCallback && geolocationOrigin.None?
        && activePermissionRequest == old(activePermissionRequest)
        && effects == old(effects) + (if old(hasGeolocationCallback)
             then [AnswerGeolocation(old(geolocationOrigin), FirstGranted(grants))] else []))
      ensures requestCode == PermissionRequestCode ==> (
        activePermissionRequest.None?
        && hasGeolocationCallback == old(hasGeolocationCallback) && geolocationOrigin == old(geolocationOrigin)
        && effects == old(effects) + (if old(activePermissionRequest).None? then []
             else if AllGranted(grants) then [GrantResources(old(activePermissionRequest).value)]
             else [DenyResources]))
      ensures requestCode != GeolocationPermissionRequestCode && requestCode != PermissionRequestCode ==> (
        effects == old(effects) && activePermissionRequest == old(activePermissionRequest)
        && hasGeolocationCallback == old(hasGeolocationCallback) && geolocationOrigin == old(geolocationOrigin))
    {
      if requestCode == GeolocationPermissionRequestCode {
        if hasGeolocationCallback {
          effects := effects + [AnswerGeolocation(geolocationOrigin, FirstGranted(grants))];
        }
        hasGeolocationCallback := false;
        geolocationOrigin := None;
      } else if requestCode == PermissionRequestCode {
        if activePermissionRequest.Some? {
          if AllGranted(grants) {
            effects := effects + [GrantResources(activePermissionRequest.value)];
          } else {
            effects := effects + [DenyResources];
          }
        }
        activePermissionRequest := None;
      }
    }
  }
}
