// The command protocol shared by every bridge generation: the command tags,
// the tag vocabulary each generation recognises, how a `command://` request
// is decoded on Android and on iOS, the callback value that answers a
// request, and the fan-out of one answer to a list of waiting requests.
module Protocol {
  import opened Common
  import opened Uri

  datatype Tag =
    | WebReady | WebWillReload
    | LocationStatus | LocationAuthorize | LocationOnce | LocationWatch | LocationClearWatch
    | StampRallyQrCode
    | BrowseApp | BrowseInApp | AppInfo | AppDetect | AppReview | MapNavigate
    | SearchFocus | WebFileChooser
    | BeaconAuthorize | BeaconOnce | BeaconWatch | BeaconClearWatch
    | HeadingWatch | HeadingClearWatch

  /** The tag's wire name (the host of the request URI). */
  function Raw(t: Tag): (name: string)
    ensures 8 <= |name|
  {
    match t
    case WebReady => "web.ready"
    case WebWillReload => "web.willreload"
    case LocationStatus => "location.status"
    case LocationAuthorize => "location.authorize"
    case LocationOnce => "location.once"
    case LocationWatch => "location.watch"
    case LocationClearWatch => "location.clearwatch"
    case StampRallyQrCode => "stamprally.qrcode"
    case BrowseApp => "browse.app"
    case BrowseInApp => "browse.inapp"
    case AppInfo => "app.info"
    case AppDetect => "app.detect"
    case AppReview => "app.review"
    case MapNavigate => "map.navigate"
    case SearchFocus => "search.focus"
    case WebFileChooser => "web.filechooser"
    case BeaconAuthorize => "beacon.authorize"
    case BeaconOnce => "beacon.once"
    case BeaconWatch => "beacon.watch"
    case BeaconClearWatch => "beacon.clearwatch"
    case HeadingWatch => "heading.watch"
    case HeadingClearWatch => "heading.clearwatch"
  }

  /** Android SDK PmWebView: twenty tags, the only generation with heading. */
  const AndroidSdkTags: seq<Tag> := [
    WebReady, WebWillReload, LocationStatus, LocationAuthorize, LocationOnce,
    LocationWatch, LocationClearWatch, BrowseApp, BrowseInApp, AppInfo,
    AppDetect, AppReview, MapNavigate, WebFileChooser,
    BeaconAuthorize, BeaconOnce, BeaconWatch, BeaconClearWatch,
    HeadingWatch, HeadingClearWatch]

  /** iOS SDK view controller: the earlier iOS tags plus beacons. */
  const IosSdkTags: seq<Tag> := [
    WebReady, WebWillReload, LocationStatus, LocationAuthorize, LocationOnce,
    LocationWatch, LocationClearWatch, StampRallyQrCode, BrowseApp, BrowseInApp,
    AppInfo, AppDetect, AppReview, MapNavigate, SearchFocus,
    BeaconAuthorize, BeaconOnce, BeaconWatch, BeaconClearWatch]

  /** Earlier iOS view controller. */
  const IosLegacyTags: seq<Tag> := [
    WebReady, WebWillReload, LocationStatus, LocationAuthorize, LocationOnce,
    LocationWatch, LocationClearWatch, StampRallyQrCode, BrowseApp, BrowseInApp,
    AppInfo, AppDetect, AppReview, MapNavigate, SearchFocus]

  /** Android sample fragment. */
  const SampleFragmentTags: seq<Tag> := [
    WebReady, WebWillReload, LocationStatus, LocationAuthorize, LocationOnce,
    LocationWatch, LocationClearWatch, StampRallyQrCode, BrowseApp, BrowseInApp,
    AppInfo, AppDetect, AppReview, MapNavigate]

  /** Android sample PmWebView: no location, beacon or heading tags. */
  const SampleWebViewTags: seq<Tag> := [
    WebReady, WebWillReload, BrowseApp, BrowseInApp, AppInfo,
    AppDetect, AppReview, MapNavigate, WebFileChooser]

  /** The one tag that can have a wire name of this length, first character
    * and fifth character: these three tell all wire names apart. */
  function Candidate(length: int, c0: char, c4: char): Option<Tag> {
    if length == 9 then Some(WebReady)
    else if length == 14 then (if c0 == 'w' then Some(WebWillReload) else Some(LocationWatch))
    else if length == 15 then (if c0 == 'l' then Some(LocationStatus) else Some(WebFileChooser))
    else if length == 18 then (if c0 == 'l' then Some(LocationAuthorize) else Some(HeadingClearWatch))
    else if length == 13 then (if c0 == 'l' then Some(LocationOnce) else Some(HeadingWatch))
    else if length == 19 then Some(LocationClearWatch)
    else if length == 17 then (if c0 == 's' then Some(StampRallyQrCode) else Some(BeaconClearWatch))
    else if length == 10 then
      (if c0 == 'b' then Some(BrowseApp) else if c4 == 'd' then Some(AppDetect) else Some(AppReview))
    else if length == 12 then
      (if c0 == 'm' then Some(MapNavigate) else if c0 == 's' then Some(SearchFocus)
       else if c4 == 's' then Some(BrowseInApp) else Some(BeaconWatch))
    else if length == 8 then Some(AppInfo)
    else if length == 16 then Some(BeaconAuthorize)
    else if length == 11 then Some(BeaconOnce)
    else None
  }

  /** The tag whose wire name is `name`, if any (decoding of a wire name). */
  function FromRaw(name: string): (r: Option<Tag>)
    ensures r.Some? ==> Raw(r.value) == name
  {
    if |name| < 8 then None
    else
      match Candidate(|name|, name[0], name[4])
      case None => None
      case Some(t) => if Raw(t) == name then Some(t) else None
  }

  /** First tag of `vocabulary` whose wire name is `name` (the enum lookup
    * `values().firstOrNull { it.rawValue == name }` / `PMCommand(rawValue:)`). */
  function Lookup(vocabulary: seq<Tag>, name: string): (r: Option<Tag>)
    ensures r.Some? ==> r.value in vocabulary && Raw(r.value) == name
    ensures r.None? ==> forall t :: t in vocabulary ==> Raw(t) != name
  {
    if |vocabulary| == 0 then None
    else if Raw(vocabulary[0]) == name then Some(vocabulary[0])
    else Lookup(vocabulary[1..], name)
  }

  /** Decoding a tag's wire name gives the tag back. */
  lemma RawRoundTrip(t: Tag)
    ensures FromRaw(Raw(t)) == Some(t)
  {
    var n := Raw(t);
    assert Candidate(|n|, n[0], n[4]) == Some(t);
  }

  /** Distinct tags have distinct wire names. */
  lemma RawInjective(t: Tag, u: Tag)
    requires Raw(t) == Raw(u)
    ensures t == u
  {
    RawRoundTrip(t);
    RawRoundTrip(u);
  }

  /** A vocabulary recognises a wire name exactly when one of its tags has it,
    * and then yields that tag. */
  lemma LookupExact(vocabulary: seq<Tag>, name: string, t: Tag)
    ensures Lookup(vocabulary, name) == Some(t) <==> t in vocabulary && Raw(t) == name
  {
    if t in vocabulary && Raw(t) == name {
      var r := Lookup(vocabulary, name);
      RawInjective(r.value, t);
    }
  }

  /** Each generation recognises only some tags; these are the ones a
    * generation lacks that another has. */
  lemma GenerationsDiffer()
    ensures HeadingWatch in AndroidSdkTags && HeadingWatch !in IosSdkTags
    ensures BeaconWatch in IosSdkTags && BeaconWatch !in IosLegacyTags
    ensures StampRallyQrCode in SampleFragmentTags && StampRallyQrCode !in AndroidSdkTags
    ensures LocationOnce !in SampleWebViewTags && WebFileChooser in SampleWebViewTags
    ensures |AndroidSdkTags| == 20 && |IosSdkTags| == 19 && |IosLegacyTags| == 15
      && |SampleFragmentTags| == 14 && |SampleWebViewTags| == 9
  {
  }

  // ---------------------------------------------------------------------
  // Requests
  // ---------------------------------------------------------------------

  const CommandScheme := "command"
  const RequestIdName := "requestId"

  /** A decoded request: the command, the page's request id, and the URI the
    * remaining parameters are read from. */
  datatype Request = Request(tag: Tag, requestId: string, uri: Uri)

  /** Android decoding: the host names a tag of the vocabulary and the FIRST
    * `requestId` parameter is the id; anything else is ignored. */
  function AndroidRequest(vocabulary: seq<Tag>, u: Uri): (r: Option<Request>)
    ensures r.Some? ==> (Host(u) == Some(Raw(r.value.tag)) && r.value.tag in vocabulary
      && FirstValue(QueryItems(u), RequestIdName) == Some(r.value.requestId)
      && r.value.uri == u)
  {
    match Host(u)
    case None => None
    case Some(host) =>
      match Lookup(vocabulary, host)
      case None => None
      case Some(tag) =>
        match FirstValue(QueryItems(u), RequestIdName)
        case None => None
        case Some(id) => Some(Request(tag, id, u))
  }

  /** iOS decoding: the host (or "") names a tag and the query dictionary,
    * where the LAST `requestId` wins, holds the id. */
  function IosRequest(vocabulary: seq<Tag>, u: Uri): (r: Option<Request>)
    ensures r.Some? ==> (Host(u) == Some(Raw(r.value.tag)) && r.value.tag in vocabulary
      && RequestIdName in QueryDictionary(QueryItems(u))
      && QueryDictionary(QueryItems(u))[RequestIdName] == r.value.requestId
      && r.value.uri == u)
  {
    var host := Host(u).GetOr("");
    match Lookup(vocabulary, host)
    case None => None
    case Some(tag) =>
      var dict := QueryDictionary(QueryItems(u));
      if RequestIdName in dict then
        Some(Request(tag, dict[RequestIdName], u))
      else None
  }

  /** Both decoders accept the same requests: a known tag and some
    * `requestId` item, whatever its value. */
  lemma {:induction false} DecodersAcceptAlike(vocabulary: seq<Tag>, u: Uri)
    ensures AndroidRequest(vocabulary, u).Some? <==>
      (exists t :: t in vocabulary && Host(u) == Some(Raw(t)))
      && (exists i :: 0 <= i < |QueryItems(u)| && QueryItems(u)[i].name == RequestIdName)
    ensures IosRequest(vocabulary, u).Some? <==> AndroidRequest(vocabulary, u).Some?
  {
    QueryDictionaryDomain(QueryItems(u), RequestIdName);
    if exists t :: t in vocabulary && Host(u) == Some(Raw(t)) {
      var t :| t in vocabulary && Host(u) == Some(Raw(t));
      LookupExact(vocabulary, Raw(t), t);
    }
  }

  // ---------------------------------------------------------------------
  // Callbacks
  // ---------------------------------------------------------------------

  /** A JSON-like value carried by a callback. */
  datatype Value =
    | Text(text: string)
    | Number(number: real)
    | Integer(integer: int)
    | Flag(flag: bool)
    | Records(records: seq<map<string, Value>>)

  type Args = map<string, Value>

  /** One answer to the page: the command, the request id it answers, and
    * its arguments. */
  datatype Callback = Callback(tag: Tag, requestId: string, args: Args)

  /** `web.ready`'s arguments on both platforms: the launch link when one
    * is waiting, and nothing else. */
  function LaunchArgs(launchUrl: Option<string>): (a: Args)
    ensures "launchUrl" in a <==> launchUrl.Some?
    ensures launchUrl.Some? ==> a["launchUrl"] == Text(launchUrl.value)
    ensures a.Keys <= {"launchUrl"}
  {
    if launchUrl.Some? then map["launchUrl" := Text(launchUrl.value)] else map[]
  }

  /** The same arguments sent to every id in `ids`, in list order. */
  function FanOut(tag: Tag, ids: seq<string>, args: Args): (cbs: seq<Callback>)
    ensures |cbs| == |ids|
  {
    seq(|ids|, i requires 0 <= i < |ids| => Callback(tag, ids[i], args))
  }

  /** The ids the callbacks answer, in order. */
  function Recipients(cbs: seq<Callback>): (ids: seq<string>)
    ensures |ids| == |cbs|
  {
    seq(|cbs|, i requires 0 <= i < |cbs| => cbs[i].requestId)
  }

  /** A fan-out answers each listed id once, in list order, with the same
    * tag and arguments; Recipients recovers the list. */
  lemma FanOutAnswersEach(tag: Tag, ids: seq<string>, args: Args)
    ensures Recipients(FanOut(tag, ids, args)) == ids
    ensures forall c :: c in FanOut(tag, ids, args) ==> c.tag == tag && c.args == args
  {
  }

  lemma FanOutAppend(tag: Tag, a: seq<string>, b: seq<string>, args: Args)
    ensures FanOut(tag, a + b, args) == FanOut(tag, a, args) + FanOut(tag, b, args)
  {
  }

  /** Loop form of the bridges' `forEach { commandCallback(...) }`: one
    * callback per id, appended in order. */
  method CallbacksFor(tag: Tag, ids: seq<string>, args: Args) returns (cbs: seq<Callback>)
    ensures cbs == FanOut(tag, ids, args)
    ensures Recipients(cbs) == ids
  {
    cbs := [];
    var k := 0;
    while k < |ids|
      invariant 0 <= k <= |ids|
      invariant cbs == FanOut(tag, ids[..k], args)
    {
      FanOutAppend(tag, ids[..k], [ids[k]], args);
      assert ids[..k + 1] == ids[..k] + [ids[k]];
      cbs := cbs + [Callback(tag, ids[k], args)];
      k := k + 1;
    }
    assert ids[..k] == ids;
    FanOutAnswersEach(tag, ids, args);
  }

  /** The answer that goes first to every one-shot waiter and then to every
    * watcher, as all bridges deliver a reading. */
  function Broadcast(onceTag: Tag, onceIds: seq<string>, watchTag: Tag, watchIds: seq<string>,
                     args: Args): (cbs: seq<Callback>)
    ensures Recipients(cbs) == onceIds + watchIds
  {
    FanOutAnswersEach(onceTag, onceIds, args);
    FanOutAnswersEach(watchTag, watchIds, args);
    assert Recipients(FanOut(onceTag, onceIds, args) + FanOut(watchTag, watchIds, args))
      == Recipients(FanOut(onceTag, onceIds, args)) + Recipients(FanOut(watchTag, watchIds, args));
    FanOut(onceTag, onceIds, args) + FanOut(watchTag, watchIds, args)
  }

  /** Loop form of a broadcast. */
  method BroadcastCallbacks(onceTag: Tag, onceIds: seq<string>, watchTag: Tag, watchIds: seq<string>,
                            args: Args) returns (cbs: seq<Callback>)
    ensures cbs == Broadcast(onceTag, onceIds, watchTag, watchIds, args)
  {
    var first := CallbacksFor(onceTag, onceIds, args);
    var second := CallbacksFor(watchTag, watchIds, args);
    cbs := first + second;
  }
}
