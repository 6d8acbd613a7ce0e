// What the Android bridges share: the runtime permissions they ask for,
// the media resources a page may request, the effects they ask of the
// platform, and the arguments of the callbacks they send to the page.
module AndroidBridge {
  import opened Common
  import opened Uri
  import opened Protocol
  import opened Permissions
  import opened MapUrl

  /** Runtime permissions the bridge asks for. */
  datatype Permission = FineLocation | BluetoothScan | Camera | RecordAudio

  /** Resources a page's media request names. */
  datatype Resource = VideoCapture | AudioCapture | OtherResource(name: string)

  /** What a bridge asks of the platform. */
  datatype Effect =
    | LoadUrl(link: MapLink)
    | StopLoading
    | ShowReloadDialog
    | OpenInApp(target: Uri)
    | OpenLink(target: Uri, sharedCookie: bool)
    | ShowRationale(permissions: seq<Permission>, requestCode: int)
    | RequestPermissions(permissions: seq<Permission>, requestCode: int)
    | StartLocationUpdates
    | StopLocationUpdates
    | CreateScanner
    | StartScan
    | StopScan
    | RegisterHeading
    | UnregisterHeading
    | GrantResources(resources: seq<Resource>)
    | DenyResources
    | AnswerGeolocation(origin: Option<string>, allow: bool)
    | DestroyWebView
    | ViewIntent(target: Uri)
    | OpenBrowserActivity(target: Uri)
    | OpenQrReader(requestId: string)
    | ShowSplash
    | HideSplash(delay: int)
    | SetSystemUi(adjustView: bool)

  /** A location fix. */
  datatype Location = Location(latitude: real, longitude: real, bearing: Option<real>)

  /** The request codes of the web view's media and geolocation prompts. */
  const PermissionRequestCode := 100
  const GeolocationPermissionRequestCode := 101

  // ---------------------------------------------------------------------
  // Callback arguments
  // ---------------------------------------------------------------------

  function StatusArgs(s: AuthorizationStatus): (a: Args)
    ensures a.Keys == {"status"} && a["status"] == Text(RawValue(s))
  {
    map["status" := Text(RawValue(s))]
  }

  /** Authorized stays authorized; anything else is reported as denied. */
  function Reported(s: AuthorizationStatus): (r: AuthorizationStatus)
    ensures r == Authorized <==> s == Authorized
    ensures r != NotDetermined
  {
    if s == Authorized then Authorized else Denied
  }

  /** A location answer: authorized or denied, the fix when there is one
    * (with its bearing when it has one), and `hasError` on failure. */
  function LocationArgs(status: AuthorizationStatus, location: Option<Location>, hasError: bool): (a: Args)
    ensures "status" in a && a["status"] == Text(RawValue(Reported(status)))
    ensures ("lat" in a <==> location.Some?) && ("lng" in a <==> location.Some?)
    ensures location.Some? ==> (a["lat"] == Number(location.value.latitude)
      && a["lng"] == Number(location.value.longitude))
    ensures "heading" in a <==> location.Some? && location.value.bearing.Some?
    ensures "hasError" in a <==> hasError
    ensures a.Keys <= {"status", "lat", "lng", "heading", "hasError"}
  {
    var base := StatusArgs(Reported(status));
    var withFix := match location
      case None => base
      case Some(l) =>
        var b := base["lat" := Number(l.latitude)]["lng" := Number(l.longitude)];
        if l.bearing.Some? then b["heading" := Number(l.bearing.value)] else b;
    if hasError then withFix["hasError" := Flag(true)] else withFix
  }

  /** `app.info`: the user id and the secret key, each only when set and
    * not empty. */
  function AppInfoArgs(userId: Option<string>, secretKey: Option<string>): (a: Args)
    ensures "userId" in a <==> userId.Some? && userId.value != ""
    ensures "secretKey" in a <==> secretKey.Some? && secretKey.value != ""
    ensures "userId" in a ==> a["userId"] == Text(userId.value)
    ensures "secretKey" in a ==> a["secretKey"] == Text(secretKey.value)
    ensures a.Keys <= {"userId", "secretKey"}
  {
    var a: Args := if userId.Some? && userId.value != "" then map["userId" := Text(userId.value)] else map[];
    if secretKey.Some? && secretKey.value != "" then a["secretKey" := Text(secretKey.value)] else a
  }

  /** The answer to a pending id, if there is one. */
  function Answer(tag: Tag, id: Option<string>, args: Args): (cbs: seq<Callback>)
    ensures |cbs| == (if id.Some? then 1 else 0)
    ensures id.Some? ==> cbs[0] == Callback(tag, id.value, args)
  {
    if id.Some? then [Callback(tag, id.value, args)] else []
  }

  /** The Play Store page of an application. */
  function PlayStoreUri(id: string): Uri {
    Parse("https://play.google.com/store/apps/details?id=" + id)
  }

  /** The runtime permissions a media request needs: CAMERA for video and
    * RECORD_AUDIO for audio capture, in that order. */
  function MediaPermissions(resources: seq<Resource>): (ps: seq<Permission>)
    ensures Camera in ps <==> VideoCapture in resources
    ensures RecordAudio in ps <==> AudioCapture in resources
    ensures forall p :: p in ps ==> p == Camera || p == RecordAudio
  {
    (if VideoCapture in resources then [Camera] else [])
    + (if AudioCapture in resources then [RecordAudio] else [])
  }

  /** The permissions of `ps` the platform has not granted, in order. */
  function Ungranted(ps: seq<Permission>, cameraGranted: bool, audioGranted: bool): (r: seq<Permission>)
    ensures forall p :: p in r <==> (p in ps && !((p == Camera && cameraGranted) || (p == RecordAudio && audioGranted)))
    ensures |r| <= |ps|
  {
    if |ps| == 0 then []
    else
      var rest := Ungranted(ps[1..], cameraGranted, audioGranted);
      assert forall p :: p in ps <==> p == ps[0] || p in ps[1..];
      if (ps[0] == Camera && cameraGranted) || (ps[0] == RecordAudio && audioGranted) then rest
      else [ps[0]] + rest
  }

  // ---------------------------------------------------------------------
  // Page-load errors
  // ---------------------------------------------------------------------

  /** The flags a load error works on: a load is in progress, the bridge
    * believes the reload dialog visible, the dialog is on screen. */
  datatype LoadErrorState = LoadErrorState(loading: bool, visible: bool, dialogOpen: bool)

  /** The state after a load error, and whether it stopped the load and
    * raised the reload dialog. */
  datatype LoadErrorOutcome = LoadErrorOutcome(after: LoadErrorState, stopsLoad: bool, raisesDialog: bool)

  /** A dialog on screen is one the bridge knows about. */
  predicate DialogTracked(s: LoadErrorState) {
    s.dialogOpen ==> s.visible
  }

  /** `showWebViewLoadErrorMessageIfNeeded`, on the flags: after
    * `web.ready` nothing happens; otherwise the load is stopped if it is
    * running, and the dialog is raised when none is visible and there is
    * an activity to show it. */
  function LoadErrorStep(ready: bool, canShow: bool, s: LoadErrorState): (o: LoadErrorOutcome)
    ensures ready ==> o == LoadErrorOutcome(s, false, false)
    ensures !ready ==> !o.after.loading && o.stopsLoad == s.loading
    ensures o.raisesDialog <==> !ready && !s.visible && canShow
    ensures o.after.visible <==> s.visible || o.raisesDialog
    ensures DialogTracked(s) ==> DialogTracked(o.after)
    ensures DialogTracked(s) && o.raisesDialog ==> !s.dialogOpen
  {
    if ready then LoadErrorOutcome(s, false, false)
    else if s.visible then LoadErrorOutcome(LoadErrorState(false, true, s.dialogOpen), s.loading, false)
    else if canShow then LoadErrorOutcome(LoadErrorState(false, true, true), s.loading, true)
    else LoadErrorOutcome(LoadErrorState(false, false, s.dialogOpen), s.loading, false)
  }

  /** What a load error asks of the platform, in order. */
  function LoadErrorEffects(o: LoadErrorOutcome): (es: seq<Effect>)
    ensures StopLoading in es <==> o.stopsLoad
    ensures ShowReloadDialog in es <==> o.raisesDialog
  {
    (if o.stopsLoad then [StopLoading] else []) + (if o.raisesDialog then [ShowReloadDialog] else [])
  }

  /** A second error right after the first changes nothing and raises no
    * second dialog. */
  lemma RepeatedLoadErrorIsQuiet(ready: bool, canShow: bool, s: LoadErrorState)
    ensures var first := LoadErrorStep(ready, canShow, s);
      var second := LoadErrorStep(ready, canShow, first.after);
      second == LoadErrorOutcome(first.after, false, false)
  {
  }
}
