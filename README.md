# Platinumaps command bridge — a Dafny model

Platinumaps shows its maps in a web page hosted by a native screen. The page and the screen talk over a small
command bridge:
- The page navigates to `command://<tag>?requestId=…&…`.
- The native side intercepts that navigation, does the work (location, beacons, permissions, browsing, QR codes, the cover or splash screen) and answers by calling the page's JavaScript callback with the tag, the request id and a map of arguments.
- The native side can also push events such as `app.link` to the page on its own.

This project models that bridge in Dafny, across the five native generations of the repository:

| module | file | what it models |
|---|---|---|
| `Common` | `common.dfy` | Options, splitting and joining strings, ASCII lower-casing, decimal rendering |
| `Uri` | `uri.dfy` | Splitting a URI into scheme, authority, path, query and fragment (by RFC 3986 Appendix B and as `android.net.Uri` does), and putting it back together; query items, as Android and as iOS read them; how browse links are resolved, by `Uri.Builder` on Android and by RFC 3986 section 5.2 on iOS |
| `Protocol` | `protocol.dfy` | The command tags, each generation's vocabulary, request decoding, callback values, and fanning one answer out to waiting requests |
| `Permissions` | `permissions.dfy` | The Android three-state authorization status, combining the beacon permissions, `allGranted`, and the iOS status texts |
| `MapUrl` | `map_url.dfy` | The map options and the three builders of the map page address |
| `Beacon` | `beacon.dfy` | Decoding iBeacon advertisements and the beacon record |
| `AndroidBridge` | `android_bridge.dfy` | The Android answer builders and the load-error decision shared by the sample screens |
| `SdkWebView` | `sdk_web_view.dfy` | The Android SDK `PmWebView` |
| `SampleWebView` | `sample_web_view.dfy` | The sample app's `PmWebView` |
| `SampleMain` | `sample_main.dfy` | The sample app's `PmMainActivity` and `PmMainFragment` |
| `IosSdkController` | `ios_sdk_controller.dfy` | The iOS SDK `PMMainViewController` |
| `IosLegacyController` | `ios_legacy_controller.dfy` | The earlier iOS `PMMainViewController` |

Each screen is a `class` whose fields are the source's fields. Its methods are the source's handlers and carry `modifies` frames.

What a screen does to the outside world goes into two logs:
- `callbacks`: the answers the page receives;
- `effects`: everything else, such as starting sensors, opening links, prompting for permissions and showing dialogs.

Every answer from the platform is a parameter of the method that asks for it: permission states, whether an activity is present, the clock, the sensor readings and whether the system can open a link.

A source callback that runs later becomes its own method, called when the event arrives. Examples: a posted timeout, the first deferred location report, an alert button, and a Swift `Task`. The iOS SDK controller's Tasks wait in a queue field (`tasks`), and `RunTask` runs the head of the queue.

The class invariants say that the sensor sessions the log has started and not yet stopped match the screen's flags: one session while measuring or monitoring, none otherwise.

## Model

| member | source | states |
|---|---|---|
| Common.Split | Android/platinumaps-sdk/src/main/java/jp/co/boldright/platinumaps/sdk/PmWebView.kt:445-448 | Kotlin `split(c)`: at least one piece and no piece holds the separator; `JoinSplit` and `SplitJoin` make it the inverse of joining |
| Common.JoinSplit | Android/platinumaps-sdk/src/main/java/jp/co/boldright/platinumaps/sdk/PmWebView.kt:445-448 | Joining the pieces of `query.split('&')` with '&' gives the query back |
| Common.SplitJoin | Android/sample/platinumaps-sdk/src/main/java/jp/co/boldright/platinumaps/sdk/PmMainFragment.kt:188-190 | Pieces without the separator, joined and split again, come back unchanged |
| Common.IndexOf | Android/platinumaps-sdk/src/main/java/jp/co/boldright/platinumaps/sdk/PmWebView.kt:448-448 | The index found holds the character and no earlier position does; None exactly when the character is absent |
| Common.SplitFirst | Android/platinumaps-sdk/src/main/java/jp/co/boldright/platinumaps/sdk/PmWebView.kt:448-448 | `split('=', limit = 2)`: the parts are the text before and after the first '=', so `before + "=" + after` is the item and `before` holds no '=' |
| Common.Lower | Android/sample/platinumaps-sdk/src/main/java/jp/co/boldright/platinumaps/sdk/PmMainActivity.kt:371-371 | ASCII lower-casing: the result has the input's length and no letter A-Z; every other character stays in place, and each upper-case letter becomes the lower-case letter at the same place in the alphabet |
| Common.LowerOfNoUpper | Android/sample/platinumaps-sdk/src/main/java/jp/co/boldright/platinumaps/sdk/PmMainActivity.kt:371-371 | A text with no upper-case letter is its own lower-case form |
| Common.LowerIdempotent | Android/sample/platinumaps-sdk/src/main/java/jp/co/boldright/platinumaps/sdk/PmMainActivity.kt:371-371 | Lower-casing twice is lower-casing once (the first result has no upper-case letter) |
| Common.HasInfixAt | Android/sample/platinumaps-sdk/src/main/java/jp/co/boldright/platinumaps/sdk/PmMainActivity.kt:371-371 | A piece occurs in a text iff it matches at some start position |
| Common.InputPageQueryAt | Android/sample/platinumaps-sdk/src/main/java/jp/co/boldright/platinumaps/sdk/PmMainActivity.kt:366-386 | The keyboard rule's `(spot=\|stamprally=\|ews=)` case-insensitive match holds iff one of the three names starts at some position of the lower-cased page query |
| Common.RemainingDelay | Android/sample/platinumaps-sdk/src/main/java/jp/co/boldright/platinumaps/sdk/PmMainActivity.kt:140-145 | The splash/cover delay is never negative, elapsed time plus the delay reaches the minimum, it is either zero or exactly what is missing, and never more than the minimum |
| Common.Decimal | Android/platinumaps-sdk/src/main/java/jp/co/boldright/platinumaps/sdk/PmWebView.kt:461-461 | Decimal text of an inset: a digit first when non-negative, a '-' first when negative; `DecimalRoundTrip` reads it back |
| Common.DecimalRoundTrip | Android/platinumaps-sdk/src/main/java/jp/co/boldright/platinumaps/sdk/PmWebView.kt:461-461 | Decimal text reads back to the same integer |
| Common.NatDecimalValue | Android/platinumaps-sdk/src/main/java/jp/co/boldright/platinumaps/sdk/PmWebView.kt:461-461 | Digits of a natural number are all digits and read back to it |
| Common.BalanceAppend | Android/platinumaps-sdk/src/main/java/jp/co/boldright/platinumaps/sdk/PmWebView.kt:865-913 | A start event opens one session, a stop closes one, other events leave the open-session count unchanged (the basis of every session invariant) |
| Uri.Span | Android/platinumaps-sdk/src/main/java/jp/co/boldright/platinumaps/sdk/PmWebView.kt:531-545 | The span is the longest prefix free of the stop characters: every earlier character is outside the set and the next one is in it |
| Uri.SplitTail | Android/platinumaps-sdk/src/main/java/jp/co/boldright/platinumaps/sdk/PmWebView.kt:531-545 | What follows the authority carries neither a scheme nor an authority |
| Uri.SchemeRestores | Android/platinumaps-sdk/src/main/java/jp/co/boldright/platinumaps/sdk/PmWebView.kt:531-545 | The scheme split loses nothing: prefix and rest rebuild the text |
| Uri.AuthorityRestores | Android/platinumaps-sdk/src/main/java/jp/co/boldright/platinumaps/sdk/PmWebView.kt:531-545 | The authority split loses nothing |
| Uri.QueryRestores | Android/platinumaps-sdk/src/main/java/jp/co/boldright/platinumaps/sdk/PmWebView.kt:531-545 | The query split loses nothing |
| Uri.FragmentRestores | Android/platinumaps-sdk/src/main/java/jp/co/boldright/platinumaps/sdk/PmWebView.kt:531-545 | The fragment split loses nothing |
| Uri.TailRestores | Android/platinumaps-sdk/src/main/java/jp/co/boldright/platinumaps/sdk/PmWebView.kt:531-545 | Path, query and fragment recompose to the tail they came from |
| Uri.ParseRecompose | Android/platinumaps-sdk/src/main/java/jp/co/boldright/platinumaps/sdk/PmWebView.kt:531-545 | Recomposing the parsed components of any URI reference gives its text back (RFC 3986 Appendix B with section 5.3) |
| Uri.HostOf | Android/platinumaps-sdk/src/main/java/jp/co/boldright/platinumaps/sdk/PmWebView.kt:546-552 | The host is no longer than the authority, and an authority without '@' or ':' is its own host |
| Uri.LastAfter | Android/platinumaps-sdk/src/main/java/jp/co/boldright/platinumaps/sdk/PmWebView.kt:546-552 | The text after the last occurrence of a character is no longer than the input, holds no such character, and is the whole input when it never occurs |
| Uri.ItemOf | iOS/platinumaps-sdk/ViewControllers/PMMainViewController.swift:411-421 | A query item has a value exactly when its piece holds '=' |
| Uri.Items | iOS/platinumaps-sdk/ViewControllers/PMMainViewController.swift:411-421 | One item per '&'-separated piece, each read by `ItemOf`, in order |
| Uri.FirstValue | Android/platinumaps-sdk/src/main/java/jp/co/boldright/platinumaps/sdk/PmWebView.kt:556-557 | `getQueryParameter`: the value comes from an item with that name and no earlier item has it; None iff no item has the name |
| Uri.QueryDictionaryDomain | iOS/platinumaps-sdk/ViewControllers/PMMainViewController.swift:411-421 | `dictionaryFromUrlQuery` holds exactly the names that occur in the query |
| Uri.QueryDictionaryLastWins | iOS/platinumaps-sdk/ViewControllers/PMMainViewController.swift:411-421 | Each name maps to the value of its last occurrence, "" for an item without '=' |
| Uri.DictionaryFromQuery | iOS/platinumaps-sdk/ViewControllers/PMMainViewController.swift:411-421 | The `forEach` loop over query items builds exactly the last-wins dictionary |
| Uri.ItemOfPair | iOS/platinumaps-sdk/ViewControllers/PMMainViewController.swift:411-421 | "name=value" with '=' only in the value splits into that name and that whole value |
| Uri.RepeatedParameterDiffers | iOS/platinumaps-sdk/ViewControllers/PMMainViewController.swift:430-431 | For `n=a&n=b`, Android's `getQueryParameter` gives `a` and iOS's dictionary gives `b`: the platforms read a repeated `requestId` differently |
| Uri.AndroidParse | Android/platinumaps-sdk/src/main/java/jp/co/boldright/platinumaps/sdk/PmWebView.kt:749-749 | `toUri()` (android.net.Uri `parse`): the scheme is the text before the first ':' and holds none; no ':' means no scheme; with a scheme the link is opaque exactly when no '/' follows that ':', and an opaque link has no query |
| Uri.AndroidParseRecompose | Android/platinumaps-sdk/src/main/java/jp/co/boldright/platinumaps/sdk/PmWebView.kt:749-749 | Recomposing what `Uri.parse` split gives the link back: nothing is lost or invented |
| Uri.ParsesAgree | Android/platinumaps-sdk/src/main/java/jp/co/boldright/platinumaps/sdk/PmWebView.kt:749-749 | Without ':' and '\' in a link, android.net.Uri and RFC 3986 Appendix B read the same components |
| Uri.MakeAbsolute | Android/platinumaps-sdk/src/main/java/jp/co/boldright/platinumaps/sdk/PmWebView.kt:756-764 | `Uri.Builder.build()` makes a path absolute: it is kept or gets one leading '/', starts with '/' unless empty, and is empty only when the input is |
| Uri.ResolveBrowseUrl | Android/platinumaps-sdk/src/main/java/jp/co/boldright/platinumaps/sdk/PmWebView.kt:747-772 | `parseBrowseUrl`: no link exactly when it has no non-empty authority, is not a passed-through `tel` link and there is no page; such a link is returned as parsed; any other takes the page's scheme (its own when the page has none) and keeps its fragment; on a page with an authority it takes that authority and an absolute path, keeps its query unless opaque, and an opaque link loses its path and query |
| Uri.RelativeLinkTakesPageOrigin | Android/platinumaps-sdk/src/main/java/jp/co/boldright/platinumaps/sdk/PmWebView.kt:747-772 | A link with no ':' and no authority opens at the page origin followed by the link, with a '/' put in between when the link starts with a relative path segment (`spots/1` on https://platinumaps.jp/maps/x opens https://platinumaps.jp/spots/1) |
| Uri.OpaqueLinkOpensPageOrigin | Android/platinumaps-sdk/src/main/java/jp/co/boldright/platinumaps/sdk/PmWebView.kt:747-772 | An opaque link that does not open as written (`mailto:a@b`, or `/spots/1?t=12:30`, whose first ':' sits in the query) opens the bare page origin with only its own fragment |
| Uri.Directory | iOS/platinumaps-sdk/ViewControllers/PMMainViewController.swift:530-540 | The directory of a path is a prefix of it, ends with '/' (or is empty), and no '/' follows it in the path |
| Uri.Merge | iOS/platinumaps-sdk/ViewControllers/PMMainViewController.swift:530-540 | RFC 3986 section 5.2.3 merge: the result ends with the reference path and has no '.' when neither input has one |
| Uri.DotRule | iOS/platinumaps-sdk/ViewControllers/PMMainViewController.swift:536-536 | Rules A to D of RFC 3986 section 5.2.4 fire only on a leading "." or "/.", shorten the input and never lengthen the output |
| Uri.RemoveDots | iOS/platinumaps-sdk/ViewControllers/PMMainViewController.swift:536-536 | RFC 3986 section 5.2.4 loop: the result is no longer than output and input together, and a path without '.' is moved over unchanged |
| Uri.RemoveDotSegments | iOS/platinumaps-sdk/ViewControllers/PMMainViewController.swift:536-536 | `remove_dot_segments`: the result is no longer than the path, and a path without '.' is kept |
| Uri.DotDotCancelsSegment | iOS/platinumaps-sdk/ViewControllers/PMMainViewController.swift:536-536 | A ".." segment takes the segment before it away: `/seg/..` followed by the rest leaves the rest (`/` when there is none) |
| Uri.ResolveReference | iOS/platinumaps-sdk/ViewControllers/PMMainViewController.swift:530-540 | RFC 3986 section 5.2.2 as `URL(string:relativeTo:).absoluteURL` applies it: a reference with a scheme stands; otherwise it takes the base scheme, its own authority or the base's, a path with dot segments removed (its own when absolute or with an authority, merged with the base directory when relative, the base path when empty), its own fragment and its own query or, with an empty path, the base's; a dot-free path ends the target path |
| Uri.PathAbsoluteLinksAgree | Android/platinumaps-sdk/src/main/java/jp/co/boldright/platinumaps/sdk/PmWebView.kt:747-772 | For a link starting with a single '/' and no ':' or '\', the Android resolution and the standard one agree up to dot-segment removal, and outright when the link has no '.' |
| Uri.RelativePathLinksDiffer | Android/platinumaps-sdk/src/main/java/jp/co/boldright/platinumaps/sdk/PmWebView.kt:747-772 | For a dot-free relative-path link on a page below a directory, RFC 3986 resolution keeps the page directory (/maps/spots/1), `parseBrowseUrl` drops it (/spots/1), so the two targets differ |
| Protocol.Raw | Android/platinumaps-sdk/src/main/java/jp/co/boldright/platinumaps/sdk/PmWebView.kt:58-86 | Every wire name has at least eight characters; `RawRoundTrip` and `RawInjective` show no two tags share one |
| Protocol.FromRaw | Android/platinumaps-sdk/src/main/java/jp/co/boldright/platinumaps/sdk/PmWebView.kt:58-86 | A decoded wire name belongs to the tag returned |
| Protocol.RawRoundTrip | Android/platinumaps-sdk/src/main/java/jp/co/boldright/platinumaps/sdk/PmWebView.kt:58-86 | Decoding a tag's wire name gives that tag |
| Protocol.RawInjective | Android/platinumaps-sdk/src/main/java/jp/co/boldright/platinumaps/sdk/PmWebView.kt:58-86 | Two tags with the same wire name are the same tag |
| Protocol.Lookup | Android/platinumaps-sdk/src/main/java/jp/co/boldright/platinumaps/sdk/PmWebView.kt:546-552 | `values().firstOrNull { it.rawValue == host }`: a found tag is in the vocabulary and has that wire name; None means no tag of the vocabulary has it |
| Protocol.LookupExact | iOS/platinumaps-sdk/ViewControllers/PMMainViewController.swift:427-429 | `PMCommand(rawValue:)` recognises a name iff a tag of the vocabulary has it, and yields that tag |
| Protocol.GenerationsDiffer | iOS/ViewControllers/PMMainViewController.swift:9-25 | The vocabularies differ: heading only on the Android SDK, beacons not in the earlier iOS screen, the QR code not in the Android SDK, no location in the sample web view; 20/19/15/14/9 tags |
| Protocol.AndroidRequest | Android/platinumaps-sdk/src/main/java/jp/co/boldright/platinumaps/sdk/PmWebView.kt:553-558 | A decoded Android request names a tag of the vocabulary by its host and carries the first `requestId`; nothing else is decoded |
| Protocol.IosRequest | iOS/platinumaps-sdk/ViewControllers/PMMainViewController.swift:426-434 | A decoded iOS request names a tag by its host (or "") and carries the last `requestId` of the query dictionary |
| Protocol.DecodersAcceptAlike | iOS/platinumaps-sdk/ViewControllers/PMMainViewController.swift:426-434 | Android and iOS decoding accept exactly the same requests: a known host and some `requestId` item |
| Protocol.FanOut | Android/platinumaps-sdk/src/main/java/jp/co/boldright/platinumaps/sdk/PmWebView.kt:965-1005 | One callback per id, with the same tag and arguments |
| Protocol.Recipients | Android/platinumaps-sdk/src/main/java/jp/co/boldright/platinumaps/sdk/PmWebView.kt:965-1005 | One recipient per callback |
| Protocol.FanOutAnswersEach | Android/platinumaps-sdk/src/main/java/jp/co/boldright/platinumaps/sdk/PmWebView.kt:965-1005 | A fan-out answers each listed id once, in list order, with one tag and one set of arguments |
| Protocol.FanOutAppend | Android/platinumaps-sdk/src/main/java/jp/co/boldright/platinumaps/sdk/PmWebView.kt:965-1005 | Fanning out to two lists is fanning out to each in turn |
| Protocol.CallbacksFor | Android/platinumaps-sdk/src/main/java/jp/co/boldright/platinumaps/sdk/PmWebView.kt:965-1005 | The `forEach { commandCallback(...) }` loop produces exactly the fan-out, answering the ids in order |
| Protocol.Broadcast | iOS/platinumaps-sdk/ViewControllers/PMMainViewController.swift:926-965 | An answer broadcast reaches the once ids and then the watch ids, in order |
| Protocol.BroadcastCallbacks | iOS/platinumaps-sdk/ViewControllers/PMMainViewController.swift:926-965 | The loops over once and then watch ids produce exactly the broadcast |
| Permissions.StatusFromRaw | Android/platinumaps-sdk/src/main/java/jp/co/boldright/platinumaps/sdk/PmAuthorizationStatus.kt:3-7 | Decoding a raw status gives a variant with that raw value |
| Permissions.RawValueRoundTrip | Android/platinumaps-sdk/src/main/java/jp/co/boldright/platinumaps/sdk/PmAuthorizationStatus.kt:3-7 | Each status decodes from its own raw value, so no two share one |
| Permissions.StatusFromRawExact | Android/platinumaps-sdk/src/main/java/jp/co/boldright/platinumaps/sdk/PmAuthorizationStatus.kt:3-7 | A text decodes exactly when it is the raw value of some status; every other text is rejected |
| Permissions.PermissionStatusMeaning | Android/platinumaps-sdk/src/main/java/jp/co/boldright/platinumaps/sdk/PmWebView.kt:1165-1184 | `permissionStatus`: authorized iff granted with an activity; denied iff there is no activity or the permission is refused with a rationale to show; notDetermined otherwise |
| Permissions.BeaconPermissionCombination | Android/platinumaps-sdk/src/main/java/jp/co/boldright/platinumaps/sdk/PmWebView.kt:1137-1164 | From API level 31: authorized iff both BLUETOOTH_SCAN and ACCESS_FINE_LOCATION are, denied iff either is, notDetermined otherwise; before that the fine-location status |
| Permissions.AllGrantedMeaning | Android/platinumaps-sdk/src/main/java/jp/co/boldright/platinumaps/sdk/PmWebView.kt:1557-1560 | `allGranted` holds iff there is at least one result and every result is a grant |
| Permissions.AnyNotGrantedMeaning | Android/platinumaps-sdk/src/main/java/jp/co/boldright/platinumaps/sdk/PmWebView.kt:1557-1560 | `any { it != GRANTED }` holds iff some result is not a grant |
| Permissions.GrantReadings | Android/platinumaps-sdk/src/main/java/jp/co/boldright/platinumaps/sdk/PmWebView.kt:1557-1584 | All granted implies the first is granted, and [granted, denied] grants the first without granting all: the geolocation prompt and the media request read the same answer differently |
| Permissions.StatusTextAgreesWithWire | iOS/platinumaps-sdk/ViewControllers/PMMainViewController.swift:680-691 | `locationAuthorizationStatusText` is the raw value of the matching wire status: "authorized" exactly for the two authorized statuses, "notDetermined" exactly for notDetermined |
| MapUrl.DefaultMapOptions | Android/sample/platinumaps-sdk/src/main/java/jp/co/boldright/platinumaps/sdk/PmMapOptions.kt:12-18 | `PmMapOptions(mapPath)` keeps the path and takes no query map, zero safe-area insets and no beacon options |
| MapUrl.DefaultBeaconOptions | Android/sample/platinumaps-sdk/src/main/java/jp/co/boldright/platinumaps/sdk/PmMapOptions.kt:28-33 | `PmMapBeaconOptions(uuid)` keeps the UUID and leaves the sample count, history size and memo unset |
| MapUrl.LinkUri | Android/platinumaps-sdk/src/main/java/jp/co/boldright/platinumaps/sdk/PmWebView.kt:435-438 | The map address is https on platinumaps.jp under `/maps/` plus the map path, with a query exactly when there are parameters |
| MapUrl.SdkItemMeaning | Android/platinumaps-sdk/src/main/java/jp/co/boldright/platinumaps/sdk/PmWebView.kt:445-452 | The SDK keeps an item exactly when it reads `k=v` with a non-empty `k` free of '=' (the value may hold '=') |
| MapUrl.LegacyItemMeaning | Android/sample/platinumaps-sdk/src/main/java/jp/co/boldright/platinumaps/sdk/PmWebView.kt:258-264 | The samples keep an item exactly when it reads `k=v` with neither part holding '=' (an empty `k` is kept) |
| MapUrl.SplitFirstUnique | Android/platinumaps-sdk/src/main/java/jp/co/boldright/platinumaps/sdk/PmWebView.kt:448-448 | In `k=v` with no '=' in `k`, the first '=' is the one after `k` |
| MapUrl.SdkQueryRoundTrip | Android/platinumaps-sdk/src/main/java/jp/co/boldright/platinumaps/sdk/PmWebView.kt:444-454 | A query string the SDK can carry reads back, through `split('&')` and `split('=', limit = 2)`, to exactly its parameters in order |
| MapUrl.SdkParamsOfTexts | Android/platinumaps-sdk/src/main/java/jp/co/boldright/platinumaps/sdk/PmWebView.kt:446-453 | The item texts of carried parameters read back to those parameters |
| MapUrl.LegacyQueryRoundTrip | Android/sample/platinumaps-sdk/src/main/java/jp/co/boldright/platinumaps/sdk/PmMainFragment.kt:187-195 | A query string free of '=' and '&' in names and values reads back, through the samples' `split('=')`, to exactly its parameters |
| MapUrl.LegacyParamsOfTexts | Android/sample/platinumaps-sdk/src/main/java/jp/co/boldright/platinumaps/sdk/PmWebView.kt:258-264 | The item texts of such parameters read back to them |
| MapUrl.ValueWithEqualsSign | Android/platinumaps-sdk/src/main/java/jp/co/boldright/platinumaps/sdk/PmWebView.kt:448-451 | An item whose value holds '=' is kept whole by the SDK and dropped by the samples: the generations read `mapQuery` differently |
| MapUrl.SplitAfterSeparator | Android/platinumaps-sdk/src/main/java/jp/co/boldright/platinumaps/sdk/PmWebView.kt:445-445 | Text before the first separator is the first piece of a split |
| MapUrl.SplitOfSeparated | Android/sample/platinumaps-sdk/src/main/java/jp/co/boldright/platinumaps/sdk/PmWebView.kt:260-261 | A text holding the separator splits into at least two pieces |
| MapUrl.SplitKeepsOut | Android/platinumaps-sdk/src/main/java/jp/co/boldright/platinumaps/sdk/PmWebView.kt:445-448 | No piece of a split holds a character the text lacks |
| MapUrl.SdkParamsWithoutEquals | Android/platinumaps-sdk/src/main/java/jp/co/boldright/platinumaps/sdk/PmWebView.kt:449-451 | Items without any '=' contribute no parameter |
| MapUrl.BlankQueryAddsNothing | Android/platinumaps-sdk/src/main/java/jp/co/boldright/platinumaps/sdk/PmWebView.kt:444-444 | The `isNotBlank` guard changes nothing: a blank query string would give no parameter anyway |
| MapUrl.SdkQueryParams | Android/platinumaps-sdk/src/main/java/jp/co/boldright/platinumaps/sdk/PmWebView.kt:445-453 | The SDK's loop over `query.split('&')` keeps exactly the parameters `SdkParams` defines |
| MapUrl.LegacyQueryParams | Android/sample/platinumaps-sdk/src/main/java/jp/co/boldright/platinumaps/sdk/PmWebView.kt:257-264 | The samples' loop keeps exactly the parameters `LegacyParams` defines |
| MapUrl.DecimalHasNoComma | Android/platinumaps-sdk/src/main/java/jp/co/boldright/platinumaps/sdk/PmWebView.kt:461-461 | A decimal inset holds no ',' so the safe-area text splits back into its two parts |
| MapUrl.SafeAreaRoundTrip | Android/platinumaps-sdk/src/main/java/jp/co/boldright/platinumaps/sdk/PmWebView.kt:461-461 | `"top,bottom"` reads back to the two insets |
| MapUrl.BeaconParams | Android/platinumaps-sdk/src/main/java/jp/co/boldright/platinumaps/sdk/PmWebView.kt:464-476 | No beacon options, no beacon parameters; at most three (sample count, history, memo) |
| MapUrl.DefaultOptionsLink | Android/platinumaps-sdk/src/main/java/jp/co/boldright/platinumaps/sdk/PmWebView.kt:489-497 | Default options and no query string ask for the map with `native=1` and `safearea=0,0` only |
| MapUrl.SdkMapLinkCarries | Android/platinumaps-sdk/src/main/java/jp/co/boldright/platinumaps/sdk/PmWebView.kt:433-482 | The SDK address carries `native=1` first, then the query string's parameters unchanged and in order, then the option map, then a safe area reading back to the two insets, then the beacon parameters |
| MapUrl.QueryStringNotBlank | Android/platinumaps-sdk/src/main/java/jp/co/boldright/platinumaps/sdk/PmWebView.kt:444-444 | A non-empty query string holds '=' and is not blank |
| MapUrl.SampleMapLinkCarries | Android/sample/platinumaps-sdk/src/main/java/jp/co/boldright/platinumaps/sdk/PmWebView.kt:253-272 | The sample web view address carries `native=2`, the query string's parameters in order, and last the safe area reading back to the two insets |
| MapUrl.FragmentMapLinkSafeArea | Android/sample/platinumaps-sdk/src/main/java/jp/co/boldright/platinumaps/sdk/PmMainFragment.kt:180-201 | The fragment address starts with `native=1` and ends with a safe area whose top is the fragment's own inset when positive and otherwise the status bar height, and whose bottom is 0 |
| MapUrl.IosMapLinkCarries | iOS/platinumaps-sdk/ViewControllers/PMMainViewController.swift:245-272 | The iOS address carries the culture only when one is chosen, then `native=1`, the map query entries in order, and last a safe area reading back to the top inset and to the bottom inset (0 when an offset bottom is set) |
| Beacon.NewBeaconDto | Android/sample/platinumaps-sdk/src/main/java/jp/co/boldright/platinumaps/sdk/PmBeaconDto.kt:5-11 | The constructor stores uuid, major, minor and rssi as given and stamps the construction time |
| Beacon.ToStringOmitsUuid | Android/sample/platinumaps-sdk/src/main/java/jp/co/boldright/platinumaps/sdk/PmBeaconDto.kt:13-20 | `toString` ignores uuid and timestamp, starts with `Beacon{major=` and ends with `}` |
| Beacon.BeaconRecordRoundTrip | Android/platinumaps-sdk/src/main/java/jp/co/boldright/platinumaps/sdk/PmWebView.kt:1365-1391 | The record sent for a sample has exactly five keys and reads back to that sample |
| Beacon.BeaconRecords | Android/platinumaps-sdk/src/main/java/jp/co/boldright/platinumaps/sdk/PmWebView.kt:1365-1391 | One record per buffered sample |
| Beacon.BeaconRecordsRoundTrip | Android/platinumaps-sdk/src/main/java/jp/co/boldright/platinumaps/sdk/PmWebView.kt:1365-1391 | A flushed batch reads back to the buffered samples, in order |
| Beacon.CollectBeaconRecords | Android/platinumaps-sdk/src/main/java/jp/co/boldright/platinumaps/sdk/PmWebView.kt:1370-1378 | The loop of `flushBeaconBuffer` builds exactly the batch's records |
| Beacon.LowByte | Android/platinumaps-sdk/src/main/java/jp/co/boldright/platinumaps/sdk/PmWebView.kt:1122-1124 | `toInt() and 0xFF` is the unsigned value of the signed byte, in 0..255 |
| Beacon.BigEndian16 | Android/platinumaps-sdk/src/main/java/jp/co/boldright/platinumaps/sdk/PmWebView.kt:1122-1124 | Major and minor are two masked bytes shifted and or-ed: a value in 0..65535 |
| Beacon.HexValue | Android/platinumaps-sdk/src/main/java/jp/co/boldright/platinumaps/sdk/PmWebView.kt:1103-1108 | A lower-case hex digit has a value below 16 whose digit is itself |
| Beacon.Hex2 | Android/platinumaps-sdk/src/main/java/jp/co/boldright/platinumaps/sdk/PmWebView.kt:1103-1108 | `%02x` of a byte is two lower-case hex digits |
| Beacon.Hex2Value | Android/platinumaps-sdk/src/main/java/jp/co/boldright/platinumaps/sdk/PmWebView.kt:1103-1108 | The two digits read back to the unsigned byte |
| Beacon.HexDigitValue | Android/platinumaps-sdk/src/main/java/jp/co/boldright/platinumaps/sdk/PmWebView.kt:1103-1108 | Each digit value below 16 has a lower-case hex digit that reads back to it |
| Beacon.HexRun | Android/platinumaps-sdk/src/main/java/jp/co/boldright/platinumaps/sdk/PmWebView.kt:1103-1108 | Two characters per byte |
| Beacon.HexRunRoundTrip | Android/platinumaps-sdk/src/main/java/jp/co/boldright/platinumaps/sdk/PmWebView.kt:1103-1108 | The hex of a run of bytes is lower-case hex and reads back to their unsigned values |
| Beacon.HexRunAppend | Android/platinumaps-sdk/src/main/java/jp/co/boldright/platinumaps/sdk/PmWebView.kt:1103-1108 | One more byte appends its two digits |
| Beacon.EmittedStep | Android/platinumaps-sdk/src/main/java/jp/co/boldright/platinumaps/sdk/PmWebView.kt:1103-1108 | Each loop step appends the byte's hex and, after bytes 12, 14, 16 and 18, a dash |
| Beacon.EmittedRun | Android/platinumaps-sdk/src/main/java/jp/co/boldright/platinumaps/sdk/PmWebView.kt:1103-1108 | Between dashes the loop emits plain hex |
| Beacon.EmittedGroup | Android/platinumaps-sdk/src/main/java/jp/co/boldright/platinumaps/sdk/PmWebView.kt:1103-1108 | A group is its hex followed by a dash |
| Beacon.EmittedIsUuidText | Android/platinumaps-sdk/src/main/java/jp/co/boldright/platinumaps/sdk/PmWebView.kt:1103-1108 | After bytes 9..24 the builder holds the 8-4-4-4-12 UUID text |
| Beacon.UuidTextShape | Android/platinumaps-sdk/src/main/java/jp/co/boldright/platinumaps/sdk/PmWebView.kt:1103-1108 | The UUID text has 36 characters, dashes at 8, 13, 18 and 23, lower-case hex elsewhere, and its hex reads back to bytes 9..24 |
| Beacon.UuidTextGroups | Android/platinumaps-sdk/src/main/java/jp/co/boldright/platinumaps/sdk/PmWebView.kt:1103-1108 | Each group of the UUID text is the hex of its bytes (4, 2, 2, 2, 6) |
| Beacon.UuidTextDigits | Android/platinumaps-sdk/src/main/java/jp/co/boldright/platinumaps/sdk/PmWebView.kt:1103-1108 | The UUID text without dashes is the hex of bytes 9..24 |
| Beacon.HexRunConcat | Android/platinumaps-sdk/src/main/java/jp/co/boldright/platinumaps/sdk/PmWebView.kt:1103-1108 | Hex of a concatenation is the concatenation of the hex |
| Beacon.BuildUuid | Android/platinumaps-sdk/src/main/java/jp/co/boldright/platinumaps/sdk/PmWebView.kt:1103-1108 | The StringBuilder loop yields exactly the UUID text |
| Beacon.ParseBeaconMeaning | Android/platinumaps-sdk/src/main/java/jp/co/boldright/platinumaps/sdk/PmWebView.kt:1096-1136 | `parseBeacon` yields a sample iff there is a record longer than 30 bytes whose UUID matches the listened one ignoring case (or none is listened for); the sample carries that UUID, big-endian unsigned major and minor, the scan's rssi and the current time |
| Beacon.DecodeScanRecord | Android/platinumaps-sdk/src/main/java/jp/co/boldright/platinumaps/sdk/PmWebView.kt:1096-1136 | The loop form of `parseBeacon` returns exactly `ParseBeacon` |
| AndroidBridge.StatusArgs | Android/platinumaps-sdk/src/main/java/jp/co/boldright/platinumaps/sdk/PmWebView.kt:933-940 | `locationStatusCommandCallback` sends exactly the `status` key with the status's raw value |
| AndroidBridge.Reported | Android/platinumaps-sdk/src/main/java/jp/co/boldright/platinumaps/sdk/PmWebView.kt:965-975 | `updateLocation` reports authorized as such and anything else as denied, never notDetermined |
| AndroidBridge.LocationArgs | Android/platinumaps-sdk/src/main/java/jp/co/boldright/platinumaps/sdk/PmWebView.kt:965-1005 | A location answer has the reported status, `lat`/`lng` iff there is a fix, `heading` iff the fix has a bearing, `hasError` iff there was an error, and nothing else |
| AndroidBridge.AppInfoArgs | Android/platinumaps-sdk/src/main/java/jp/co/boldright/platinumaps/sdk/PmWebView.kt:559-573 | `app.info` carries `userId` and `secretKey` each exactly when set and non-empty, and nothing else |
| Protocol.LaunchArgs | Android/platinumaps-sdk/src/main/java/jp/co/boldright/platinumaps/sdk/PmWebView.kt:575-584 | `web.ready` carries `launchUrl` exactly when an app link waits, with that link, and no other key |
| AndroidBridge.Answer | Android/platinumaps-sdk/src/main/java/jp/co/boldright/platinumaps/sdk/PmWebView.kt:1275-1312 | A pending id gets exactly one answer with the given tag and arguments; no id, no answer |
| AndroidBridge.MediaPermissions | Android/platinumaps-sdk/src/main/java/jp/co/boldright/platinumaps/sdk/PmWebView.kt:340-390 | A media request needs CAMERA iff it captures video and RECORD_AUDIO iff it captures audio, nothing else |
| AndroidBridge.Ungranted | Android/platinumaps-sdk/src/main/java/jp/co/boldright/platinumaps/sdk/PmWebView.kt:340-390 | The permissions still to ask for are exactly those needed and not granted |
| AndroidBridge.LoadErrorStep | Android/sample/platinumaps-sdk/src/main/java/jp/co/boldright/platinumaps/sdk/PmWebView.kt:294-326 | `showWebViewLoadErrorMessageIfNeeded`: after `web.ready` nothing changes; otherwise the load stops if running, the dialog is raised iff none is visible and it can be shown, the visible flag records it, and a tracked dialog stays tracked |
| AndroidBridge.LoadErrorEffects | Android/sample/platinumaps-sdk/src/main/java/jp/co/boldright/platinumaps/sdk/PmMainFragment.kt:284-316 | The load is stopped iff the step stops it and the reload dialog appears iff the step raises it |
| AndroidBridge.RepeatedLoadErrorIsQuiet | Android/sample/platinumaps-sdk/src/main/java/jp/co/boldright/platinumaps/sdk/PmWebView.kt:294-326 | A second load error right after the first changes nothing and raises no second dialog |
| SdkWebView.BatchArgs | Android/platinumaps-sdk/src/main/java/jp/co/boldright/platinumaps/sdk/PmWebView.kt:1365-1391 | A flush sends only `beacons`, one record per buffered sample |
| SdkWebView.BeaconErrorArgs | Android/platinumaps-sdk/src/main/java/jp/co/boldright/platinumaps/sdk/PmWebView.kt:1313-1326 | The beacon error answer is exactly `hasError`, the reported status and an empty `beacons` list |
| SdkWebView.BeaconDeniedArgs | Android/platinumaps-sdk/src/main/java/jp/co/boldright/platinumaps/sdk/PmWebView.kt:1275-1312 | After a refused beacon prompt the waiters hear exactly `status: denied` and `hasError` |
| SdkWebView.HeadingArgs | Android/platinumaps-sdk/src/main/java/jp/co/boldright/platinumaps/sdk/PmWebView.kt:1535-1556 | A heading answer is exactly the rounded heading |
| SdkWebView.BatchRoundTrip | Android/platinumaps-sdk/src/main/java/jp/co/boldright/platinumaps/sdk/PmWebView.kt:1365-1391 | Every buffered sample reaches the page and reads back unchanged, in arrival order |
| SdkWebView.AuthorizedNeedsNoPrompt | Android/platinumaps-sdk/src/main/java/jp/co/boldright/platinumaps/sdk/PmWebView.kt:1006-1038 | An authorized beacon status never reaches the prompt: nothing is missing and an activity is present |
| SdkWebView.PmWebView.constructor | Android/platinumaps-sdk/src/main/java/jp/co/boldright/platinumaps/sdk/PmWebView.kt:99-207 | A new web view has no page, no listener, no pending ids, no sessions, an empty buffer and no callbacks or effects |
| SdkWebView.PmWebView.EmitOther | Android/platinumaps-sdk/src/main/java/jp/co/boldright/platinumaps/sdk/PmWebView.kt:865-913 | An effect that starts or stops no location, scan or heading session keeps each session count equal to its flag |
| SdkWebView.PmWebView.SwitchLocation | Android/platinumaps-sdk/src/main/java/jp/co/boldright/platinumaps/sdk/PmWebView.kt:865-913 | Requesting or removing location updates is logged and `isMeasuringLocation` follows, so one session runs exactly while the flag is set |
| SdkWebView.PmWebView.SwitchScan | Android/platinumaps-sdk/src/main/java/jp/co/boldright/platinumaps/sdk/PmWebView.kt:1060-1082 | Starting or stopping the BLE scan is logged and `isScanningBle` follows; a scan starts only once the scanner exists |
| SdkWebView.PmWebView.SwitchHeading | Android/platinumaps-sdk/src/main/java/jp/co/boldright/platinumaps/sdk/PmWebView.kt:1412-1509 | Registering or unregistering the heading listener is logged and the listener flag follows; it registers only with an activity |
| SdkWebView.PmWebView.AnswerBeaconAuthorization | Android/platinumaps-sdk/src/main/java/jp/co/boldright/platinumaps/sdk/PmWebView.kt:1281-1306 | The pending authorize id is answered with authorized or denied under `location.authorize` and forgotten; a denial answers every beacon once and watch id with hasError and drops them |
| SdkWebView.PmWebView.SetOnOpenLinkListener | Android/platinumaps-sdk/src/main/java/jp/co/boldright/platinumaps/sdk/PmWebView.kt:201-201 | The listener is present exactly when one is set |
| SdkWebView.PmWebView.RequestPermissionsIfPossible | Android/platinumaps-sdk/src/main/java/jp/co/boldright/platinumaps/sdk/PmWebView.kt:793-802 | `requestPermissions` asks the platform only with an activity |
| SdkWebView.PmWebView.OnRationaleAccepted | Android/platinumaps-sdk/src/main/java/jp/co/boldright/platinumaps/sdk/PmWebView.kt:829-844 | Accepting the rationale dialog asks for the permissions it explained |
| SdkWebView.PmWebView.StopLocationRequest | Android/platinumaps-sdk/src/main/java/jp/co/boldright/platinumaps/sdk/PmWebView.kt:903-913 | Idempotent: no session afterwards, and a stop is issued only if one ran |
| SdkWebView.PmWebView.StopLocationRequestIfNoRequest | Android/platinumaps-sdk/src/main/java/jp/co/boldright/platinumaps/sdk/PmWebView.kt:927-932 | The session ends exactly when both id lists are empty |
| SdkWebView.PmWebView.UpdateLocation | Android/platinumaps-sdk/src/main/java/jp/co/boldright/platinumaps/sdk/PmWebView.kt:965-1005 | Every once id, then every watch id, hears the same answer; the once ids are dropped and the session stops when no watcher is left |
| SdkWebView.PmWebView.OnLocationResult | Android/platinumaps-sdk/src/main/java/jp/co/boldright/platinumaps/sdk/PmWebView.kt:130-138 | A fix is remembered and delivered as `updateLocation` delivers it |
| SdkWebView.PmWebView.UpdateLocationPermission | Android/platinumaps-sdk/src/main/java/jp/co/boldright/platinumaps/sdk/PmWebView.kt:941-964 | A denial answers every pending once and watch id with `denied` and drops them; a grant keeps them; the pending authorize id is answered either way and forgotten |
| SdkWebView.PmWebView.RequestLocationPermission | Android/platinumaps-sdk/src/main/java/jp/co/boldright/platinumaps/sdk/PmWebView.kt:845-864 | Authorized answers the pending authorize id at once; denied shows the rationale first; undetermined prompts; the id lists are untouched |
| SdkWebView.PmWebView.StartLocationRequest | Android/platinumaps-sdk/src/main/java/jp/co/boldright/platinumaps/sdk/PmWebView.kt:865-902 | Nothing unless authorized; never a second session; a once request during a session replays the last fix to every waiter |
| SdkWebView.PmWebView.StartLocationRequestFor | Android/platinumaps-sdk/src/main/java/jp/co/boldright/platinumaps/sdk/PmWebView.kt:914-926 | Without an activity the request hears `denied` at once; otherwise it prompts (rationale when denied) or starts the session as `startLocationRequest` does |
| SdkWebView.PmWebView.InitBeaconReceiver | Android/platinumaps-sdk/src/main/java/jp/co/boldright/platinumaps/sdk/PmWebView.kt:1039-1059 | With an activity the scanner exists afterwards (created once) and one scan start is posted; without, nothing changes |
| SdkWebView.PmWebView.StartScanningBeacon | Android/platinumaps-sdk/src/main/java/jp/co/boldright/platinumaps/sdk/PmWebView.kt:1060-1082 | Idempotent: the scan runs afterwards and is started only if it did not |
| SdkWebView.PmWebView.RunPostedScanStart | Android/platinumaps-sdk/src/main/java/jp/co/boldright/platinumaps/sdk/PmWebView.kt:1039-1059 | A posted scan start runs the scan and is consumed |
| SdkWebView.PmWebView.StopBeaconRequest | Android/platinumaps-sdk/src/main/java/jp/co/boldright/platinumaps/sdk/PmWebView.kt:1201-1210 | Idempotent: no scan afterwards, stopped only if running |
| SdkWebView.PmWebView.StopBeaconRequestIfNoRequest | Android/platinumaps-sdk/src/main/java/jp/co/boldright/platinumaps/sdk/PmWebView.kt:1247-1252 | The scan stops exactly when both beacon id lists are empty |
| SdkWebView.PmWebView.PauseScanningBeacon | Android/platinumaps-sdk/src/main/java/jp/co/boldright/platinumaps/sdk/PmWebView.kt:1211-1219 | A running scan stops and is marked paused |
| SdkWebView.PmWebView.ResumeScanningBeacon | Android/platinumaps-sdk/src/main/java/jp/co/boldright/platinumaps/sdk/PmWebView.kt:1220-1230 | A paused scan starts again and the pause mark clears |
| SdkWebView.PmWebView.RequestBeaconPermission | Android/platinumaps-sdk/src/main/java/jp/co/boldright/platinumaps/sdk/PmWebView.kt:1006-1038 | With an activity, prompts for the missing beacon permissions, or starts the receiver when nothing is missing; nothing without an activity |
| SdkWebView.PmWebView.StartBeaconRequest | Android/platinumaps-sdk/src/main/java/jp/co/boldright/platinumaps/sdk/PmWebView.kt:1185-1200 | Only an authorized status starts the receiver |
| SdkWebView.PmWebView.StartBeaconRequestFor | Android/platinumaps-sdk/src/main/java/jp/co/boldright/platinumaps/sdk/PmWebView.kt:1231-1246 | Without an activity the request hears `denied`; otherwise it prompts or starts the receiver |
| SdkWebView.PmWebView.BeaconCommandCallback | Android/platinumaps-sdk/src/main/java/jp/co/boldright/platinumaps/sdk/PmWebView.kt:1392-1411 | Every once id, then every watch id, hears the same answer; once ids are dropped and the scan stops when no watcher is left |
| SdkWebView.PmWebView.FlushBeaconBuffer | Android/platinumaps-sdk/src/main/java/jp/co/boldright/platinumaps/sdk/PmWebView.kt:1365-1391 | A non-empty buffer goes out whole, in order, to every waiter and is emptied; the flush time is reset either way |
| SdkWebView.PmWebView.ReserveFlushBeaconBuffer | Android/platinumaps-sdk/src/main/java/jp/co/boldright/platinumaps/sdk/PmWebView.kt:1352-1364 | At most one delayed flush is reserved |
| SdkWebView.PmWebView.ReservedFlushFires | Android/platinumaps-sdk/src/main/java/jp/co/boldright/platinumaps/sdk/PmWebView.kt:1352-1364 | The reserved flush runs `flushBeaconBuffer` and frees the reservation |
| SdkWebView.PmWebView.UpdateBeacon | Android/platinumaps-sdk/src/main/java/jp/co/boldright/platinumaps/sdk/PmWebView.kt:1313-1351 | An error empties the buffer and answers every waiter with the error; a sample joins the buffer, which flushes at once when the last flush is older than the buffering window and otherwise reserves a delayed flush |
| SdkWebView.PmWebView.OnScanResult | Android/platinumaps-sdk/src/main/java/jp/co/boldright/platinumaps/sdk/PmWebView.kt:1083-1095 | A scan record that decodes to a listened sample is buffered or flushed as `updateBeacon` says; any other record changes nothing |
| SdkWebView.PmWebView.UpdateBeaconPermission | Android/platinumaps-sdk/src/main/java/jp/co/boldright/platinumaps/sdk/PmWebView.kt:1275-1312 | With an activity: the pending authorize id is answered (under `location.authorize`); a grant starts the receiver; a denial answers every beacon waiter with denied/hasError and drops them |
| SdkWebView.PmWebView.DestroyBeacon | Android/platinumaps-sdk/src/main/java/jp/co/boldright/platinumaps/sdk/PmWebView.kt:1253-1263 | Every beacon request is forgotten, the buffer emptied and the scan stopped |
| SdkWebView.PmWebView.StartSensorHeadingRequest | Android/platinumaps-sdk/src/main/java/jp/co/boldright/platinumaps/sdk/PmWebView.kt:1412-1491 | No-op while a listener exists; otherwise registers one when there is an activity |
| SdkWebView.PmWebView.StopSensorHeadingRequest | Android/platinumaps-sdk/src/main/java/jp/co/boldright/platinumaps/sdk/PmWebView.kt:1492-1512 | Idempotent: the listener is gone afterwards |
| SdkWebView.PmWebView.OnHeadingReading | Android/platinumaps-sdk/src/main/java/jp/co/boldright/platinumaps/sdk/PmWebView.kt:1424-1466 | A heading is remembered and pushed to every watcher only when more than the push interval has passed since the last push |
| SdkWebView.PmWebView.OnPermissionRequest | Android/platinumaps-sdk/src/main/java/jp/co/boldright/platinumaps/sdk/PmWebView.kt:340-390 | A media request is denied without an activity or when it needs neither camera nor microphone, granted at once when both are granted, and otherwise kept while the missing permissions are asked for |
| SdkWebView.PmWebView.OnGeolocationPermissionsShowPrompt | Android/platinumaps-sdk/src/main/java/jp/co/boldright/platinumaps/sdk/PmWebView.kt:391-431 | Refused without an activity; otherwise the callback and origin are kept and allowed at once when fine location is granted, else the permission is asked for |
| SdkWebView.PmWebView.HandlePermissionResult | Android/platinumaps-sdk/src/main/java/jp/co/boldright/platinumaps/sdk/PmWebView.kt:1557-1605 | Routes by request code: the media request is granted iff all results are grants, the page geolocation iff the first is, and the location and beacon prompts answer their waiters |
| SdkWebView.PmWebView.AnswerMediaRequest | Android/platinumaps-sdk/src/main/java/jp/co/boldright/platinumaps/sdk/PmWebView.kt:1562-1571 | The kept media request is granted iff every result is a grant; the slot empties |
| SdkWebView.PmWebView.AnswerGeolocationPrompt | Android/platinumaps-sdk/src/main/java/jp/co/boldright/platinumaps/sdk/PmWebView.kt:1573-1583 | The kept geolocation callback is allowed iff the first result is a grant; callback and origin empty |
| SdkWebView.PmWebView.ActivityPause | Android/platinumaps-sdk/src/main/java/jp/co/boldright/platinumaps/sdk/PmWebView.kt:1646-1660 | With requests pending the location session stops; a running scan pauses; the heading listener goes |
| SdkWebView.PmWebView.ResumeLocationRequest | Android/platinumaps-sdk/src/main/java/jp/co/boldright/platinumaps/sdk/PmWebView.kt:1662-1664 | With requests pending and authorization: a stopped session starts updating; a running one replays the last fix, if there is one, to the once ids when no watch waits, then stops; otherwise, or unauthorized, nothing changes |
| SdkWebView.PmWebView.ActivityResume | Android/platinumaps-sdk/src/main/java/jp/co/boldright/platinumaps/sdk/PmWebView.kt:1661-1667 | The location resume with its answers and effects, then the paused scan's restart and the heading listener's registration, in that order in the effect log |
| SdkWebView.PmWebView.ActivityDestroy | Android/platinumaps-sdk/src/main/java/jp/co/boldright/platinumaps/sdk/PmWebView.kt:1676-1698 | The beacon part is torn down and the web view destroyed; location and heading are left to `activityPause` |
| SdkWebView.PmWebView.LoadWebView | Android/platinumaps-sdk/src/main/java/jp/co/boldright/platinumaps/sdk/PmWebView.kt:516-530 | A page address is loaded and recorded as the latest load; without one nothing happens |
| SdkWebView.PmWebView.OnPageFinished | Android/platinumaps-sdk/src/main/java/jp/co/boldright/platinumaps/sdk/PmWebView.kt:224-228 | The load is over |
| SdkWebView.PmWebView.OpenPlatinumaps | Android/platinumaps-sdk/src/main/java/jp/co/boldright/platinumaps/sdk/PmWebView.kt:433-497 | The address is `SdkMapLink` of the options and query string, the configured beacon UUID is listened for, and the page loads |
| SdkWebView.PmWebView.OpenPlatinumapsPage | Android/platinumaps-sdk/src/main/java/jp/co/boldright/platinumaps/sdk/PmWebView.kt:505-515 | The path/query/insets form builds the same address from default options and keeps the beacon UUID |
| SdkWebView.PmWebView.OpenWebBrowseInApp | Android/platinumaps-sdk/src/main/java/jp/co/boldright/platinumaps/sdk/PmWebView.kt:775-780 | A Custom Tab opens only with an activity |
| SdkWebView.PmWebView.OpenLinkWithListener | Android/platinumaps-sdk/src/main/java/jp/co/boldright/platinumaps/sdk/PmWebView.kt:781-792 | A link goes to the listener only when one is set |
| SdkWebView.PmWebView.BrowseTarget | Android/platinumaps-sdk/src/main/java/jp/co/boldright/platinumaps/sdk/PmWebView.kt:720-772 | A target exists only when the request has a `url` parameter, and always does when it has one and a page is loaded; a link with an authority, or a `tel` link, opens exactly as `Uri.parse` reads it; any other link on the platinumaps.jp page opens on https://platinumaps.jp |
| SdkWebView.PmWebView.CommandWebBrowse | Android/platinumaps-sdk/src/main/java/jp/co/boldright/platinumaps/sdk/PmWebView.kt:720-746 | `browse.app` and `map.navigate` hand the link to the listener; `browse.inapp` uses the listener for a shared-cookie link and a Custom Tab otherwise; no target, no effect |
| SdkWebView.PmWebView.CommandAppInfo | Android/platinumaps-sdk/src/main/java/jp/co/boldright/platinumaps/sdk/PmWebView.kt:559-573 | `app.info` answers once with the user id and secret key |
| SdkWebView.PmWebView.CommandWebReady | Android/platinumaps-sdk/src/main/java/jp/co/boldright/platinumaps/sdk/PmWebView.kt:575-584 | The page is ready and a waiting launch URL is handed over once, then forgotten |
| SdkWebView.PmWebView.CommandWebWillReload | Android/platinumaps-sdk/src/main/java/jp/co/boldright/platinumaps/sdk/PmWebView.kt:586-590 | The page is no longer ready; the empty answer follows |
| SdkWebView.PmWebView.CommandLocationStatus | Android/platinumaps-sdk/src/main/java/jp/co/boldright/platinumaps/sdk/PmWebView.kt:592-596 | Answers with the current location status |
| SdkWebView.PmWebView.CommandLocationAuthorize | Android/platinumaps-sdk/src/main/java/jp/co/boldright/platinumaps/sdk/PmWebView.kt:598-607 | Authorized is answered at once; otherwise the id waits and the prompt (or rationale) is shown |
| SdkWebView.PmWebView.CommandLocationRequest | Android/platinumaps-sdk/src/main/java/jp/co/boldright/platinumaps/sdk/PmWebView.kt:609-619 | The id joins its list and the session is requested; when authorized, a watch implies a running session |
| SdkWebView.PmWebView.CommandLocationClearWatch | Android/platinumaps-sdk/src/main/java/jp/co/boldright/platinumaps/sdk/PmWebView.kt:621-625 | Every watcher is dropped and the session stops when no once id waits |
| SdkWebView.PmWebView.CommandAppReview | Android/platinumaps-sdk/src/main/java/jp/co/boldright/platinumaps/sdk/PmWebView.kt:637-645 | The Play Store page goes to the listener when the store id is known |
| SdkWebView.PmWebView.CommandBeaconAuthorize | Android/platinumaps-sdk/src/main/java/jp/co/boldright/platinumaps/sdk/PmWebView.kt:650-666 | Answered at once when authorized, or as denied without an activity; otherwise the id waits for the prompt |
| SdkWebView.PmWebView.CommandBeaconRequest | Android/platinumaps-sdk/src/main/java/jp/co/boldright/platinumaps/sdk/PmWebView.kt:668-678 | The id joins its list; without an activity it hears denied; when authorized the receiver starts |
| SdkWebView.PmWebView.CommandBeaconClearWatch | Android/platinumaps-sdk/src/main/java/jp/co/boldright/platinumaps/sdk/PmWebView.kt:680-686 | Every watcher is dropped and the scan stops when no once id waits |
| SdkWebView.PmWebView.CommandHeadingWatch | Android/platinumaps-sdk/src/main/java/jp/co/boldright/platinumaps/sdk/PmWebView.kt:687-691 | The id joins the heading watchers and the listener starts |
| SdkWebView.PmWebView.CommandHeadingClearWatch | Android/platinumaps-sdk/src/main/java/jp/co/boldright/platinumaps/sdk/PmWebView.kt:693-700 | Every heading watcher is dropped and the listener stops |
| SdkWebView.PmWebView.RunPageCommand | Android/platinumaps-sdk/src/main/java/jp/co/boldright/platinumaps/sdk/PmWebView.kt:559-591 | `app.info` answers the user id and secret key, `web.ready` the waiting launch link, which is then forgotten, with the page marked ready; `web.willreload` answers empty and clears readiness; the echoing link commands answer nothing |
| SdkWebView.PmWebView.RunLocationCommand | Android/platinumaps-sdk/src/main/java/jp/co/boldright/platinumaps/sdk/PmWebView.kt:592-625 | `location.status` answers the location status; `location.authorize` answers authorized at once, or else answers nothing and keeps the id waiting for the prompt's result |
| SdkWebView.PmWebView.RunBeaconCommand | Android/platinumaps-sdk/src/main/java/jp/co/boldright/platinumaps/sdk/PmWebView.kt:650-686 | `beacon.authorize` answers denied without an activity and authorized when the beacon permissions are granted; otherwise it answers nothing and keeps the id waiting |
| SdkWebView.PmWebView.RunSensorCommand | Android/platinumaps-sdk/src/main/java/jp/co/boldright/platinumaps/sdk/PmWebView.kt:592-700 | The location, beacon and heading commands: a status or a granted authorize is answered at once with exactly that answer, an authorize that must ask answers nothing and keeps its id waiting, and the clearing commands answer nothing themselves |
| SdkWebView.PmWebView.Dispatch | Android/platinumaps-sdk/src/main/java/jp/co/boldright/platinumaps/sdk/PmWebView.kt:557-701 | Every command that answers at once (`app.info`, `web.ready`, `web.willreload`, `location.status`, a granted authorize, a beacon authorize without activity) adds exactly that answer; an authorize that must ask keeps its id waiting and answers nothing; echoing tags answer nothing themselves |
| SdkWebView.PmWebView.RunDecoded | Android/platinumaps-sdk/src/main/java/jp/co/boldright/platinumaps/sdk/PmWebView.kt:557-703 | A decoded command gives its immediate answer, or exactly the empty echo when it is one of the echoing tags |
| SdkWebView.PmWebView.RunCommand | Android/platinumaps-sdk/src/main/java/jp/co/boldright/platinumaps/sdk/PmWebView.kt:553-704 | Returns 1 and changes nothing when the host names no tag or there is no `requestId`; otherwise 0; the echoing tags end with exactly one empty answer and the immediately answered ones with exactly their answer |
| SdkWebView.PmWebView.OpenRequest | Android/platinumaps-sdk/src/main/java/jp/co/boldright/platinumaps/sdk/PmWebView.kt:531-545 | A `command` URI is always consumed (0); another URI goes to a Custom Tab once the page is ready (0) and is left to the web view before (1) |
| SdkWebView.PmWebView.ShouldOverrideUrlLoading | Android/platinumaps-sdk/src/main/java/jp/co/boldright/platinumaps/sdk/PmWebView.kt:256-270 | The web view skips exactly the navigations the bridge consumed |
| SampleWebView.PmWebView.constructor | Android/sample/platinumaps-sdk/src/main/java/jp/co/boldright/platinumaps/sdk/PmWebView.kt:47-92 | A new web view has no page, no load in flight, no ready page, no dialog, no launch data, no link listener, no pending permission request and empty logs |
| SampleWebView.PmWebView.SetLaunchInfo | Android/sample/platinumaps-sdk/src/main/java/jp/co/boldright/platinumaps/sdk/PmWebView.kt:68-71 | The host's store id, launch link, user id and secret key are kept exactly as given |
| SampleWebView.PmWebView.SetOnOpenLinkListener | Android/sample/platinumaps-sdk/src/main/java/jp/co/boldright/platinumaps/sdk/PmWebView.kt:74-74 | Whether a link listener is installed |
| SampleWebView.PmWebView.OpenPlatinumaps | Android/sample/platinumaps-sdk/src/main/java/jp/co/boldright/platinumaps/sdk/PmWebView.kt:253-270 | The page address becomes the sample map link (with `native=2`, insets and query) and is loaded; that load's timeout is posted |
| SampleWebView.PmWebView.LoadWebView | Android/sample/platinumaps-sdk/src/main/java/jp/co/boldright/platinumaps/sdk/PmWebView.kt:274-293 | Without a page address nothing happens; otherwise the page is loaded, `now` becomes the latest load token and one more timeout is pending |
| SampleWebView.PmWebView.LoadTimeoutFires | Android/sample/platinumaps-sdk/src/main/java/jp/co/boldright/platinumaps/sdk/PmWebView.kt:285-291 | A timeout is consumed; it acts only when it belongs to the latest load, and then raises the reload dialog as `LoadErrorStep` decides |
| SampleWebView.PmWebView.ShowWebViewLoadErrorMessageIfNeeded | Android/sample/platinumaps-sdk/src/main/java/jp/co/boldright/platinumaps/sdk/PmWebView.kt:294-326 | The loading flags and the dialog change exactly as `LoadErrorStep` decides: a ready page or a visible dialog suppresses a second dialog |
| SampleWebView.PmWebView.OnReceivedError | Android/sample/platinumaps-sdk/src/main/java/jp/co/boldright/platinumaps/sdk/PmWebView.kt:99-107 | A load error goes through the same decision as a timeout |
| SampleWebView.PmWebView.OnPageFinished | Android/sample/platinumaps-sdk/src/main/java/jp/co/boldright/platinumaps/sdk/PmWebView.kt:94-98 | Loading is over |
| SampleWebView.PmWebView.OnReloadChosen | Android/sample/platinumaps-sdk/src/main/java/jp/co/boldright/platinumaps/sdk/PmWebView.kt:313-316 | The dialog closes, it may be raised again, and the page is loaded again with a fresh timeout |
| SampleWebView.PmWebView.OnReloadDialogCancelled | Android/sample/platinumaps-sdk/src/main/java/jp/co/boldright/platinumaps/sdk/PmWebView.kt:311-318 | A dismissed dialog leaves the visible flag set, so no reload dialog is raised again |
| SampleWebView.PmWebView.OpenWebBrowseInApp | Android/sample/platinumaps-sdk/src/main/java/jp/co/boldright/platinumaps/sdk/PmWebView.kt:486-491 | The link opens in a Custom Tab exactly when there is an activity |
| SampleWebView.PmWebView.OpenLinkWithListener | Android/sample/platinumaps-sdk/src/main/java/jp/co/boldright/platinumaps/sdk/PmWebView.kt:492-503 | The link (with its shared-cookie flag) reaches the listener exactly when one is installed |
| SampleWebView.PmWebView.BrowseTarget | Android/sample/platinumaps-sdk/src/main/java/jp/co/boldright/platinumaps/sdk/PmWebView.kt:431-484 | A target exists only when the command carries `url`, and always does when it carries one and a page is loaded; a link with an authority, or a `tel` link, opens exactly as `Uri.parse` reads it; any other link on the platinumaps.jp page opens on https://platinumaps.jp |
| SampleWebView.PmWebView.CommandWebBrowse | Android/sample/platinumaps-sdk/src/main/java/jp/co/boldright/platinumaps/sdk/PmWebView.kt:431-457 | `browse.app`/`map.navigate` hand the target to the listener; `browse.inapp` uses a Custom Tab, or the listener with cookies when `sharedCookie=true`; no target means no effect |
| SampleWebView.PmWebView.Dispatch | Android/sample/platinumaps-sdk/src/main/java/jp/co/boldright/platinumaps/sdk/PmWebView.kt:355-412 | `app.info` answers user id and secret key; `web.ready` marks the page ready and hands the launch link over once; `web.willreload` clears readiness; `app.review` opens the store page through the listener; other commands answer nothing themselves |
| SampleWebView.PmWebView.RunCommand | Android/sample/platinumaps-sdk/src/main/java/jp/co/boldright/platinumaps/sdk/PmWebView.kt:349-415 | 1 with no effect when the host is none of the nine tags or `requestId` is missing; otherwise 0 and exactly one answer for that tag and id (the empty echo for the commands that do not answer themselves) |
| SampleWebView.PmWebView.OpenRequest | Android/sample/platinumaps-sdk/src/main/java/jp/co/boldright/platinumaps/sdk/PmWebView.kt:327-341 | A `command` URI is always consumed (0); another URI goes to a Custom Tab once the page is ready (0) and is left to the web view before (1) |
| SampleWebView.PmWebView.ShouldOverrideUrlLoading | Android/sample/platinumaps-sdk/src/main/java/jp/co/boldright/platinumaps/sdk/PmWebView.kt:108-124 | The web view skips exactly the navigations the bridge consumed |
| SampleWebView.PmWebView.OnPermissionRequest | Android/sample/platinumaps-sdk/src/main/java/jp/co/boldright/platinumaps/sdk/PmWebView.kt:154-204 | A media request is refused without an activity or without camera/microphone resources, granted when every needed permission is held, and otherwise kept while the missing ones are requested |
| SampleWebView.PmWebView.OnGeolocationPermissionsShowPrompt | Android/sample/platinumaps-sdk/src/main/java/jp/co/boldright/platinumaps/sdk/PmWebView.kt:205-230 | Refused without an activity; otherwise the callback and origin are kept and the page is allowed at once when fine location is granted, else the prompt starts |
| SampleWebView.PmWebView.HandlePermissionResult | Android/sample/platinumaps-sdk/src/main/java/jp/co/boldright/platinumaps/sdk/PmWebView.kt:516-556 | The geolocation answer is the first result and clears the kept callback; the media request is granted iff every result is and is cleared; any other request code changes nothing |
| SampleMain.QrArgs | Android/sample/platinumaps-sdk/src/main/java/jp/co/boldright/platinumaps/sdk/PmMainFragment.kt:547-554 | The QR answer carries `value` iff the reader returned non-empty text, and then exactly that text |
| SampleMain.PermissionAnswerCallbacks | Android/sample/platinumaps-sdk/src/main/java/jp/co/boldright/platinumaps/sdk/PmMainFragment.kt:612-635 | A denial answers every once id and then every watch id as denied; the pending authorize id hears the new status last; every answer carries that status |
| SampleMain.PmMainActivity.constructor | Android/sample/platinumaps-sdk/src/main/java/jp/co/boldright/platinumaps/sdk/PmMainActivity.kt:48-92 | The activity starts with no location session, no fix, no fragment and an empty log |
| SampleMain.PmMainActivity.EmitOther | Android/sample/platinumaps-sdk/src/main/java/jp/co/boldright/platinumaps/sdk/PmMainActivity.kt:249-287 | An effect that neither requests nor removes location updates keeps the session count equal to `isMeasuringLocation` |
| SampleMain.PmMainActivity.SwitchLocation | Android/sample/platinumaps-sdk/src/main/java/jp/co/boldright/platinumaps/sdk/PmMainActivity.kt:249-287 | Requesting or removing updates is logged and `isMeasuringLocation` follows, keeping the activity and its fragment consistent |
| SampleMain.PmMainActivity.ReplayLastLocation | Android/sample/platinumaps-sdk/src/main/java/jp/co/boldright/platinumaps/sdk/PmMainActivity.kt:268-273 | A once request while measuring answers the fragment's once ids with the last fix, and the session stops when no watch id remains |
| SampleMain.PmMainFragment.CommandAppReview | Android/sample/platinumaps-sdk/src/main/java/jp/co/boldright/platinumaps/sdk/PmMainFragment.kt:436-443 | The Play Store page of the configured store id is opened; nothing without a store id |
| SampleMain.PmMainActivity.SetupMainFragment | Android/sample/platinumaps-sdk/src/main/java/jp/co/boldright/platinumaps/sdk/PmMainActivity.kt:106-117 | A fragment already hosted stays; otherwise a new attached fragment holds exactly the given slug, query, ids and status bar height |
| SampleMain.PmMainActivity.HideSplashView | Android/sample/platinumaps-sdk/src/main/java/jp/co/boldright/platinumaps/sdk/PmMainActivity.kt:135-157 | A visible splash fades out after what is left of the minimum display time; a hidden one is left alone |
| SampleMain.PmMainActivity.ShowSplashView | Android/sample/platinumaps-sdk/src/main/java/jp/co/boldright/platinumaps/sdk/PmMainActivity.kt:122-134 | A hidden splash fades in; a visible one is left alone |
| SampleMain.PmMainActivity.CanUseCamera | Android/sample/platinumaps-sdk/src/main/java/jp/co/boldright/platinumaps/sdk/PmMainActivity.kt:158-191 | True iff the camera is granted; otherwise the camera prompt starts, behind an explanation when the platform asks for one |
| SampleMain.PmMainActivity.OnRationaleAccepted | Android/sample/platinumaps-sdk/src/main/java/jp/co/boldright/platinumaps/sdk/PmMainActivity.kt:174-180 | Accepting an explanation starts exactly the explained prompt |
| SampleMain.PmMainActivity.RequestLocationPermission | Android/sample/platinumaps-sdk/src/main/java/jp/co/boldright/platinumaps/sdk/PmMainActivity.kt:220-243 | An authorized status answers the fragment at once as a grant; otherwise the prompt starts, behind an explanation when the status is denied |
| SampleMain.PmMainActivity.OnRequestPermissionsResult | Android/sample/platinumaps-sdk/src/main/java/jp/co/boldright/platinumaps/sdk/PmMainActivity.kt:309-336 | An answer naming no permission changes nothing; a location answer is granted iff every result is and reaches the fragment's waiters; a camera answer opens the reader or answers the pending QR request empty |
| SampleMain.PmMainActivity.StartLocationRequest | Android/sample/platinumaps-sdk/src/main/java/jp/co/boldright/platinumaps/sdk/PmMainActivity.kt:249-279 | Nothing unless authorized; never a second session; a once request while measuring answers the once ids with the last fix and stops the session when no watch remains |
| SampleMain.PmMainActivity.StopLocationRequest | Android/sample/platinumaps-sdk/src/main/java/jp/co/boldright/platinumaps/sdk/PmMainActivity.kt:280-287 | Idempotent: a running session is stopped exactly once |
| SampleMain.PmMainActivity.OnLocationChanged | Android/sample/platinumaps-sdk/src/main/java/jp/co/boldright/platinumaps/sdk/PmMainActivity.kt:288-296 | The fix is kept, every once id and then every watch id hears it, the once ids are done, and the session stops when no watch remains |
| SampleMain.PmMainActivity.OpenWebBrowseActivity | Android/sample/platinumaps-sdk/src/main/java/jp/co/boldright/platinumaps/sdk/PmMainActivity.kt:297-308 | The in-app browser screen opens on the given link |
| SampleMain.PmMainActivity.OnKeyboardVisibilityChanged | Android/sample/platinumaps-sdk/src/main/java/jp/co/boldright/platinumaps/sdk/PmMainActivity.kt:366-389 | The window is laid out for the keyboard iff `ShouldAdjustView` holds for the visibility and the current page |
| SampleMain.PmMainFragment.constructor | Android/sample/platinumaps-sdk/src/main/java/jp/co/boldright/platinumaps/sdk/PmMainFragment.kt:712-735 | The fragment keeps its arguments and starts with no page, no pending location or QR request and empty logs |
| SampleMain.PmMainFragment.OnViewCreated | Android/sample/platinumaps-sdk/src/main/java/jp/co/boldright/platinumaps/sdk/PmMainFragment.kt:100-206 | The inset is replaced by the status bar height when not positive; the page address becomes the fragment's map link and is loaded with a timeout |
| SampleMain.PmMainFragment.LoadWebView | Android/sample/platinumaps-sdk/src/main/java/jp/co/boldright/platinumaps/sdk/PmMainFragment.kt:264-283 | Without a page address nothing happens; otherwise the page is loaded, `now` becomes the latest load token and one more timeout is pending |
| SampleMain.PmMainFragment.LoadTimeoutFires | Android/sample/platinumaps-sdk/src/main/java/jp/co/boldright/platinumaps/sdk/PmMainFragment.kt:275-281 | A timeout is consumed; it acts only when it belongs to the latest load |
| SampleMain.PmMainFragment.ShowWebViewLoadErrorMessageIfNeeded | Android/sample/platinumaps-sdk/src/main/java/jp/co/boldright/platinumaps/sdk/PmMainFragment.kt:284-316 | The loading flags and dialog change exactly as `LoadErrorStep` decides |
| SampleMain.PmMainFragment.OnReceivedError | Android/sample/platinumaps-sdk/src/main/java/jp/co/boldright/platinumaps/sdk/PmMainFragment.kt:120-137 | Page and HTTP errors go through the same decision as a timeout |
| SampleMain.PmMainFragment.OnPageFinished | Android/sample/platinumaps-sdk/src/main/java/jp/co/boldright/platinumaps/sdk/PmMainFragment.kt:115-119 | Loading is over |
| SampleMain.PmMainFragment.OnReloadChosen | Android/sample/platinumaps-sdk/src/main/java/jp/co/boldright/platinumaps/sdk/PmMainFragment.kt:303-306 | The dialog closes, it may be raised again, and the page loads again with a fresh timeout |
| SampleMain.PmMainFragment.OnReloadDialogCancelled | Android/sample/platinumaps-sdk/src/main/java/jp/co/boldright/platinumaps/sdk/PmMainFragment.kt:301-308 | A dismissed dialog leaves the visible flag set, so no reload dialog is raised again |
| SampleMain.PmMainFragment.OnResume | Android/sample/platinumaps-sdk/src/main/java/jp/co/boldright/platinumaps/sdk/PmMainFragment.kt:208-214 | With requests pending and authorization (PmMainActivity.kt:249-275): a stopped session starts; a running one replays the last fix to the once ids when no watch waits, answering and clearing them, then stops; unauthorized, or with nothing pending, nothing changes |
| SampleMain.PmMainFragment.OnStop | Android/sample/platinumaps-sdk/src/main/java/jp/co/boldright/platinumaps/sdk/PmMainFragment.kt:215-221 | With requests pending the session is stopped; otherwise nothing changes |
| SampleMain.PmMainFragment.LocationStatusNow | Android/sample/platinumaps-sdk/src/main/java/jp/co/boldright/platinumaps/sdk/PmMainFragment.kt:597-603 | The activity's status, and denied without an activity |
| SampleMain.PmMainFragment.StopLocationRequestIfNoRequest | Android/sample/platinumaps-sdk/src/main/java/jp/co/boldright/platinumaps/sdk/PmMainFragment.kt:591-596 | The session stops exactly when no once or watch id is pending |
| SampleMain.PmMainFragment.UpdateLocation | Android/sample/platinumaps-sdk/src/main/java/jp/co/boldright/platinumaps/sdk/PmMainFragment.kt:636-672 | Every once id and then every watch id hears the same report; the once ids are done; the session stops when no watch remains |
| SampleMain.PmMainFragment.UpdateLocationPermission | Android/sample/platinumaps-sdk/src/main/java/jp/co/boldright/platinumaps/sdk/PmMainFragment.kt:612-635 | A denial answers and drops every once and watch id; a grant keeps them; the authorize id is answered and forgotten |
| SampleMain.PmMainFragment.StartLocationRequest | Android/sample/platinumaps-sdk/src/main/java/jp/co/boldright/platinumaps/sdk/PmMainFragment.kt:578-590 | Without an activity the request is answered as denied; an unauthorized status starts the prompt; an authorized one starts a session, or replays the last fix to the once ids when one runs |
| SampleMain.PmMainFragment.CanUseCamera | Android/sample/platinumaps-sdk/src/main/java/jp/co/boldright/platinumaps/sdk/PmMainFragment.kt:535-544 | True iff there is an activity and the camera is granted; otherwise the request waits in the single pending slot while the prompt runs |
| SampleMain.PmMainFragment.UpdateCameraPermission | Android/sample/platinumaps-sdk/src/main/java/jp/co/boldright/platinumaps/sdk/PmMainFragment.kt:563-573 | The pending QR request gets the reader on a grant and the empty answer on a denial; the slot is emptied |
| SampleMain.PmMainFragment.OnQrCodeRead | Android/sample/platinumaps-sdk/src/main/java/jp/co/boldright/platinumaps/sdk/PmMainFragment.kt:547-554 | The request hears the text read, as `QrArgs` shapes it |
| SampleMain.PmMainFragment.OnQrReaderCancelled | Android/sample/platinumaps-sdk/src/main/java/jp/co/boldright/platinumaps/sdk/PmMainFragment.kt:556-558 | The request hears the empty answer |
| SampleMain.PmMainFragment.CommandQrCode | Android/sample/platinumaps-sdk/src/main/java/jp/co/boldright/platinumaps/sdk/PmMainFragment.kt:423-429 | The reader opens when the camera may be used; otherwise the request waits in the pending slot; only without an activity and with the slot free does the empty echo follow |
| SampleMain.PmMainFragment.BrowseTarget | Android/sample/platinumaps-sdk/src/main/java/jp/co/boldright/platinumaps/sdk/PmMainFragment.kt:465-513 | A target exists only when the command carries `url`, and always does when it carries one and a page is loaded; a link with an authority opens exactly as `Uri.parse` reads it (this screen has no `tel` exception); any other link on the platinumaps.jp page opens on https://platinumaps.jp |
| SampleMain.PmMainFragment.OpenWebBrowseInApp | Android/sample/platinumaps-sdk/src/main/java/jp/co/boldright/platinumaps/sdk/PmMainFragment.kt:515-520 | The link opens in a Custom Tab exactly when there is an activity |
| SampleMain.PmMainFragment.CommandWebBrowse | Android/sample/platinumaps-sdk/src/main/java/jp/co/boldright/platinumaps/sdk/PmMainFragment.kt:465-489 | `browse.app`/`map.navigate` open the target in another application; `browse.inapp` uses a Custom Tab, or the activity's browser screen when `sharedCookie=true`; no target means no effect |
| SampleMain.PmMainFragment.CommandWebReady | Android/sample/platinumaps-sdk/src/main/java/jp/co/boldright/platinumaps/sdk/PmMainFragment.kt:360-372 | The page is ready; with an activity the splash hides and the launch link is handed over once; without one only the empty echo follows |
| SampleMain.PmMainFragment.CommandWebWillReload | Android/sample/platinumaps-sdk/src/main/java/jp/co/boldright/platinumaps/sdk/PmMainFragment.kt:374-381 | The page is no longer ready; with an activity the splash shows and the empty answer follows |
| SampleMain.PmMainFragment.CommandLocationAuthorize | Android/sample/platinumaps-sdk/src/main/java/jp/co/boldright/platinumaps/sdk/PmMainFragment.kt:388-405 | Answered at once when authorized (or as denied without an activity); otherwise the id waits and the prompt starts |
| SampleMain.PmMainFragment.CommandLocationRequest | Android/sample/platinumaps-sdk/src/main/java/jp/co/boldright/platinumaps/sdk/PmMainFragment.kt:406-415 | The id joins the once or watch list and the session is asked for; without an activity it is answered as denied |
| SampleMain.PmMainFragment.CommandLocationClearWatch | Android/sample/platinumaps-sdk/src/main/java/jp/co/boldright/platinumaps/sdk/PmMainFragment.kt:416-419 | Every watch id goes; the session stops when no once id is left |
| SampleMain.PmMainFragment.DispatchPageCommand | Android/sample/platinumaps-sdk/src/main/java/jp/co/boldright/platinumaps/sdk/PmMainFragment.kt:345-381 | `app.info` answers the user id and secret key; the echo decision follows `FragmentEchoes`, and an echoing command answers nothing itself |
| SampleMain.PmMainFragment.DispatchLocationCommand | Android/sample/platinumaps-sdk/src/main/java/jp/co/boldright/platinumaps/sdk/PmMainFragment.kt:382-419 | `location.status` answers the location status now; `location.clearwatch` answers nothing itself |
| SampleMain.PmMainFragment.Dispatch | Android/sample/platinumaps-sdk/src/main/java/jp/co/boldright/platinumaps/sdk/PmMainFragment.kt:345-440 | The empty echo follows exactly for the commands `FragmentEchoes` names, and then no other answer is given; `app.info` answers the user id and secret key and `location.status` the location status |
| SampleMain.PmMainFragment.RunDecoded | Android/sample/platinumaps-sdk/src/main/java/jp/co/boldright/platinumaps/sdk/PmMainFragment.kt:345-446 | A decoded command ends with the empty echo exactly for the commands `FragmentEchoes` names; `app.info` and `location.status` add exactly their answer |
| SampleMain.PmMainFragment.RunCommand | Android/sample/platinumaps-sdk/src/main/java/jp/co/boldright/platinumaps/sdk/PmMainFragment.kt:339-449 | 1 with no change when the host is none of the fourteen tags or `requestId` is missing; otherwise 0, with the empty echo for exactly the commands that do not answer themselves, and exactly the `app.info` or `location.status` answer for those two |
| SampleMain.PmMainFragment.OpenRequest | Android/sample/platinumaps-sdk/src/main/java/jp/co/boldright/platinumaps/sdk/PmMainFragment.kt:317-331 | A `command` URI is always consumed (0); another URI goes to a Custom Tab once the page is ready (0) and is left to the web view before (1) |
| SampleMain.PmMainFragment.ShouldOverrideUrlLoading | Android/sample/platinumaps-sdk/src/main/java/jp/co/boldright/platinumaps/sdk/PmMainFragment.kt:138-154 | The web view skips exactly the navigations the bridge consumed |
| IosSdkController.StatusAnswer | iOS/platinumaps-sdk/ViewControllers/PMMainViewController.swift:463-472 | A status answer holds exactly `status`, the wire text of the authorization status |
| IosSdkController.LocationReportArgs | iOS/platinumaps-sdk/ViewControllers/PMMainViewController.swift:926-965 | A location report has `lat`/`lng` iff there is a fix, `heading` iff there is one, `hasError` iff failed, and always `status`, and nothing else |
| IosSdkController.AppInfoArgs | iOS/platinumaps-sdk/ViewControllers/PMMainViewController.swift:435-444 | `userId`/`secretKey` appear iff set and non-empty; `offsetBottom` always; no other key |
| IosSdkController.InRange | iOS/platinumaps-sdk/ViewControllers/PMMainViewController.swift:1194-1200 | Exactly the beacons with positive accuracy, in order |
| IosSdkController.BeaconRecords | iOS/platinumaps-sdk/ViewControllers/PMMainViewController.swift:1195-1213 | One record per beacon, each the record of that beacon |
| IosSdkController.RangedRecords | iOS/platinumaps-sdk/ViewControllers/PMMainViewController.swift:1190-1222 | The loop yields the records of exactly the in-range beacons |
| IosSdkController.BeaconErrorArgs | iOS/platinumaps-sdk/ViewControllers/PMMainViewController.swift:1240-1252 | A beacon failure answer is exactly `hasError` and the status text |
| IosSdkController.DeclinedFollowUps | iOS/platinumaps-sdk/ViewControllers/PMMainViewController.swift:767-810 | Each waiter of the denied alert gets its own follow-up, in order, when the alert is declined |
| IosSdkController.BrowseTarget | iOS/platinumaps-sdk/ViewControllers/PMMainViewController.swift:530-559 | An absolute link stands as written; a scheme-less link on a page resolves against it by RFC 3986: the page's scheme, its own authority or the page's, its own fragment, and its own query when it has one |
| IosSdkController.PMMainViewController.constructor | iOS/platinumaps-sdk/ViewControllers/PMMainViewController.swift:10-157 | The controller keeps its launch parameters and starts with no page, no session, no pending request, an empty task queue and empty logs; the cover shows iff one is configured |
| IosSdkController.PMMainViewController.EmitOther | iOS/platinumaps-sdk/ViewControllers/PMMainViewController.swift:710-1171 | An effect that starts or stops no location, monitoring or ranging session keeps each session count equal to its flag |
| IosSdkController.PMMainViewController.SwitchLocation | iOS/platinumaps-sdk/ViewControllers/PMMainViewController.swift:733-748 | Starting or stopping location updates is logged and `isMeasuringLocation` follows |
| IosSdkController.PMMainViewController.SwitchMonitoring | iOS/platinumaps-sdk/ViewControllers/PMMainViewController.swift:1074-1094 | Starting or stopping region monitoring is logged and `isMonitoringBeacon` follows; monitoring starts only when beacons are configured |
| IosSdkController.PMMainViewController.SwitchRanging | iOS/platinumaps-sdk/ViewControllers/PMMainViewController.swift:1134-1169 | Starting or stopping ranging is logged and `isRangingBeacon` follows; ranging starts only when beacons are configured |
| IosSdkController.PMMainViewController.StartLocationRequestUnauthorized | iOS/platinumaps-sdk/ViewControllers/PMMainViewController.swift:713-751 | Undetermined only prompts; restricted, unknown or silently denied queue a report without position; a denial waits behind the shared alert; the session is untouched |
| IosSdkController.PMMainViewController.AnswerLocationAuthorize | iOS/platinumaps-sdk/ViewControllers/PMMainViewController.swift:879-887 | A waiting `location.authorize` id is answered with the new status and forgotten |
| IosSdkController.PMMainViewController.PushAppLink | iOS/platinumaps-sdk/ViewControllers/PMMainViewController.swift:972-993 | After `web.ready` the page receives `app.link` with the link, and a presented screen is dismissed first |
| IosSdkController.PMMainViewController.StartBeaconRequestUnauthorized | iOS/platinumaps-sdk/ViewControllers/PMMainViewController.swift:1038-1066 | Undetermined only prompts; restricted, unknown or silently denied queue a beacon failure; a denial waits behind the shared alert |
| IosSdkController.PMMainViewController.ViewDidAppear | iOS/platinumaps-sdk/ViewControllers/PMMainViewController.swift:245-291 | Only the first appearance builds the page address (slug, culture, query, insets, bottom offset) and loads it |
| IosSdkController.PMMainViewController.LoadPageAddress | iOS/platinumaps-sdk/ViewControllers/PMMainViewController.swift:270-290 | The given address becomes the page and is loaded |
| IosSdkController.PMMainViewController.DidStartProvisionalNavigation | iOS/platinumaps-sdk/ViewControllers/PMMainViewController.swift:366-378 | Before `web.ready`, a navigation start marks loading and stamps the time; after it nothing changes |
| IosSdkController.PMMainViewController.DidEndNavigation | iOS/platinumaps-sdk/ViewControllers/PMMainViewController.swift:359-382 | A finished or failed navigation ends loading |
| IosSdkController.PMMainViewController.OpenSafariViewController | iOS/platinumaps-sdk/ViewControllers/PMMainViewController.swift:646-658 | The link goes to the delegate when there is one, else to an in-app Safari view |
| IosSdkController.PMMainViewController.ShowCoverImageView | iOS/platinumaps-sdk/ViewControllers/PMMainViewController.swift:599-617 | The cover is shown iff one is configured, and a hidden one is shown once |
| IosSdkController.PMMainViewController.HideCoverImageView | iOS/platinumaps-sdk/ViewControllers/PMMainViewController.swift:618-645 | A shown cover fades after what is left of the minimum display time |
| IosSdkController.PMMainViewController.DecidePolicyFor | iOS/platinumaps-sdk/ViewControllers/PMMainViewController.swift:383-410 | A navigation proceeds iff it is not a command and not a tapped link; a tapped web link goes to the delegate or Safari, another scheme opens only if the system can open it |
| IosSdkController.PMMainViewController.CommandWebReady | iOS/platinumaps-sdk/ViewControllers/PMMainViewController.swift:445-456 | The page is ready, loading ends, the cover hides, and the launch link is handed over once |
| IosSdkController.PMMainViewController.CommandWebWillReload | iOS/platinumaps-sdk/ViewControllers/PMMainViewController.swift:457-462 | The page is no longer ready, the cover shows when configured, and the empty answer follows |
| IosSdkController.PMMainViewController.CommandWebBrowse | iOS/platinumaps-sdk/ViewControllers/PMMainViewController.swift:530-559 | With a delegate the link goes to it; `browse.app` or a non-web link opens externally when possible; otherwise an in-app browser, with shared cookies or Safari |
| IosSdkController.PMMainViewController.DispatchSensorCommand | iOS/platinumaps-sdk/ViewControllers/PMMainViewController.swift:463-527 | Status and authorize commands queue their answer task; once/watch ids join their lists and queue a session start; clear-watch empties the watch list and stops the session when nothing remains |
| IosSdkController.PMMainViewController.OpenOther | iOS/platinumaps-sdk/ViewControllers/PMMainViewController.swift:560-572 | The link opens in another application |
| IosSdkController.PMMainViewController.Dispatch | iOS/platinumaps-sdk/ViewControllers/PMMainViewController.swift:433-577 | `app.info` answers user id, secret key and bottom offset; the commands `IosEchoes` names answer nothing themselves |
| IosSdkController.PMMainViewController.RunCommand | iOS/platinumaps-sdk/ViewControllers/PMMainViewController.swift:426-598 | An unknown command or missing `requestId` changes nothing; an echoing command is answered empty once; `app.info` is answered twice, with its data and then empty |
| IosSdkController.PMMainViewController.PushLaunchUrl | iOS/platinumaps-sdk/ViewControllers/PMMainViewController.swift:966-1015 | Before `web.ready` the link waits; after it the page receives `app.link` with the link, and a presented screen is dismissed |
| IosSdkController.PMMainViewController.RunTask | iOS/platinumaps-sdk/ViewControllers/PMMainViewController.swift:464-508 | Running the head task removes it and does what it deferred: a status answer, an authorize answer or prompt, a location report to every once and watch id, a beacon failure to every beacon id; a queued location or beacon start prompts when undetermined, starts the session when authorized (a running location session only asks for one more fix on a once request), queues the answer without position or the beacon failure when refused, or waits behind the denied alert |
| IosSdkController.PMMainViewController.RunStartTask | iOS/platinumaps-sdk/ViewControllers/PMMainViewController.swift:710-753 | `startLocationRequest` or `startBeaconRequest` as the task asks: a prompt when undetermined; an authorized location start runs the session (a running one only asks once more for a once request); a refusal queues the answer without position or the beacon failure; a denial that is not silent waits behind the alert; the restart after a grant is a once request exactly when a watch id is pending when it runs |
| IosSdkController.PMMainViewController.RunAnswerTask | iOS/platinumaps-sdk/ViewControllers/PMMainViewController.swift:464-488 | Status and authorize tasks answer with the current status; an undetermined authorize request waits for the prompt |
| IosSdkController.PMMainViewController.AwaitDeniedAlert | iOS/platinumaps-sdk/ViewControllers/PMMainViewController.swift:767-810 | Only the first waiter presents the denied alert; later ones join the same alert |
| IosSdkController.PMMainViewController.OnDeniedAlertAnswered | iOS/platinumaps-sdk/ViewControllers/PMMainViewController.swift:767-810 | OK opens the settings; cancel queues the declined follow-up of every waiter |
| IosSdkController.PMMainViewController.PresentAlertForLocationRestricted | iOS/platinumaps-sdk/ViewControllers/PMMainViewController.swift:811-829 | The restricted alert is presented only when not already visible |
| IosSdkController.PMMainViewController.OnRestrictedAlertClosed | iOS/platinumaps-sdk/ViewControllers/PMMainViewController.swift:811-829 | Closing the restricted alert lets it be presented again |
| IosSdkController.PMMainViewController.StartLocationRequest | iOS/platinumaps-sdk/ViewControllers/PMMainViewController.swift:710-756 | Undetermined only prompts; restricted, unknown or silently denied queue a report without position; denied behind one shared alert; authorized starts a session once, or asks a running one for a single fix |
| IosSdkController.PMMainViewController.StartLocationSession | iOS/platinumaps-sdk/ViewControllers/PMMainViewController.swift:733-748 | A running session is not started again (a once request asks for one fix); a new one starts with the callback state reset |
| IosSdkController.PMMainViewController.StopLocationRequest | iOS/platinumaps-sdk/ViewControllers/PMMainViewController.swift:836-845 | Idempotent: a running session stops exactly once |
| IosSdkController.PMMainViewController.StopLocationRequestIfNoRequest | iOS/platinumaps-sdk/ViewControllers/PMMainViewController.swift:830-835 | The session stops iff no once or watch id is pending |
| IosSdkController.PMMainViewController.LocationCommandCallback | iOS/platinumaps-sdk/ViewControllers/PMMainViewController.swift:926-965 | Every once id and then every watch id hears the same report; once ids are done; the session stops when no watch remains |
| IosSdkController.PMMainViewController.DidUpdateLocations | iOS/platinumaps-sdk/ViewControllers/PMMainViewController.swift:890-908 | The first fix schedules the delayed first report; fixes before it fires are dropped; later ones queue a report with the latest heading |
| IosSdkController.PMMainViewController.FirstLocationCallbackFires | iOS/platinumaps-sdk/ViewControllers/PMMainViewController.swift:895-900 | The delayed first report is queued and reports flow from then on |
| IosSdkController.PMMainViewController.DidUpdateHeading | iOS/platinumaps-sdk/ViewControllers/PMMainViewController.swift:909-919 | The heading is kept, and reported at once when reports flow |
| IosSdkController.PMMainViewController.DidFailWithError | iOS/platinumaps-sdk/ViewControllers/PMMainViewController.swift:920-925 | As written: the session stops and the failure report is queued, but the watch list is already cleared when it runs |
| IosSdkController.PMMainViewController.DidFailWithErrorCorrected | iOS/platinumaps-sdk/ViewControllers/PMMainViewController.swift:920-925 | Corrected: the session stops and the queued failure report clears the watch list only after answering it |
| IosSdkController.PMMainViewController.FailureReportAsWritten | iOS/platinumaps-sdk/ViewControllers/PMMainViewController.swift:920-965 | As written, the failure reaches only the once ids: no watch id hears it |
| IosSdkController.PMMainViewController.FailureReportCorrected | iOS/platinumaps-sdk/ViewControllers/PMMainViewController.swift:920-965 | Corrected, the failure reaches every once id and then every watch id, and then both lists are empty |
| IosSdkController.PMMainViewController.AuthorizationChangedForLocation | iOS/platinumaps-sdk/ViewControllers/PMMainViewController.swift:846-860 | With requests pending, a grant queues the silent restart, which reads the watch list only when it runs; a refusal stops the session, drops the watch list and queues a report without position; otherwise nothing changes |
| IosSdkController.PMMainViewController.AuthorizationChangedForLocationCorrected | iOS/platinumaps-sdk/ViewControllers/PMMainViewController.swift:846-860 | Corrected: a refusal stops the session and queues a report without position that clears the watch list only after answering it; the grant and undetermined cases as written |
| IosSdkController.PMMainViewController.RefusalReportAsWritten | iOS/platinumaps-sdk/ViewControllers/PMMainViewController.swift:855-858 | As written, a refusal reaches only the once ids: no watch id hears it |
| IosSdkController.PMMainViewController.RefusalReportCorrected | iOS/platinumaps-sdk/ViewControllers/PMMainViewController.swift:855-858 | Corrected, a refusal reaches every once id and then every watch id, and then both lists are empty |
| IosSdkController.PMMainViewController.DidChangeAuthorization | iOS/platinumaps-sdk/ViewControllers/PMMainViewController.swift:846-889 | A decided status answers and forgets the waiting `location.authorize` id; an undetermined one keeps it |
| IosSdkController.PMMainViewController.StartMonitoringBeaconIfNeeded | iOS/platinumaps-sdk/ViewControllers/PMMainViewController.swift:1074-1084 | Monitoring starts once, and only when beacons are configured |
| IosSdkController.PMMainViewController.StopMonitoringBeaconIfNeeded | iOS/platinumaps-sdk/ViewControllers/PMMainViewController.swift:1085-1096 | Monitoring stops exactly once |
| IosSdkController.PMMainViewController.StartRangingBeaconsIfNeeded | iOS/platinumaps-sdk/ViewControllers/PMMainViewController.swift:1134-1142 | Ranging starts once |
| IosSdkController.PMMainViewController.StopRangingBeaconsIfNeeded | iOS/platinumaps-sdk/ViewControllers/PMMainViewController.swift:1160-1171 | Ranging stops exactly once |
| IosSdkController.PMMainViewController.StopBeaconSession | iOS/platinumaps-sdk/ViewControllers/PMMainViewController.swift:1097-1107 | Ranging and then monitoring stop, each only if running |
| IosSdkController.PMMainViewController.StopBeaconRequestIfNoRequest | iOS/platinumaps-sdk/ViewControllers/PMMainViewController.swift:1097-1107 | Beacon sensing stops iff no beacon id is pending |
| IosSdkController.PMMainViewController.StartBeaconRequest | iOS/platinumaps-sdk/ViewControllers/PMMainViewController.swift:1030-1073 | Undetermined only prompts; restricted, unknown or silently denied queue a beacon failure; denied behind the shared alert; authorized starts monitoring when beacons are configured |
| IosSdkController.PMMainViewController.BeaconFanOut | iOS/platinumaps-sdk/ViewControllers/PMMainViewController.swift:1240-1252 | Every once id and then every watch id hears the same answer; once ids are done; sensing stops when no watch remains |
| IosSdkController.PMMainViewController.BeaconErrorCallback | iOS/platinumaps-sdk/ViewControllers/PMMainViewController.swift:1240-1252 | Every beacon id hears the failure and both lists are emptied |
| IosSdkController.PMMainViewController.BeaconCommandCallback | iOS/platinumaps-sdk/ViewControllers/PMMainViewController.swift:1190-1239 | A ranging result reaches every beacon id with the in-range records; a failure without beacons is queued as a beacon failure |
| IosSdkController.PMMainViewController.DidRangeBeacons | iOS/platinumaps-sdk/ViewControllers/PMMainViewController.swift:1172-1189 | Only while both monitoring and ranging, the in-range beacons reach every beacon id |
| IosSdkController.PMMainViewController.DidStartMonitoring | iOS/platinumaps-sdk/ViewControllers/PMMainViewController.swift:1108-1117 | Monitoring asks for the region's state when beacons are configured |
| IosSdkController.PMMainViewController.DidFindRegion | iOS/platinumaps-sdk/ViewControllers/PMMainViewController.swift:1118-1151 | Being inside the region starts ranging once, when beacons are configured |
| IosSdkController.PMMainViewController.DidExitRegion | iOS/platinumaps-sdk/ViewControllers/PMMainViewController.swift:1152-1159 | Leaving the region stops ranging |
| IosSdkController.PMMainViewController.AuthorizationChangedForBeacons | iOS/platinumaps-sdk/ViewControllers/PMMainViewController.swift:846-889 | With beacon ids pending, a grant restarts monitoring; a refusal stops sensing and queues a beacon failure; otherwise nothing changes |
| IosSdkController.PMMainViewController.DidEnterBackground | iOS/platinumaps-sdk/ViewControllers/PMMainViewController.swift:1253-1261 | Running beacon sensing is paused in the background; the observer exists from the first `viewDidAppear` on |
| IosSdkController.PMMainViewController.WillEnterForeground | iOS/platinumaps-sdk/ViewControllers/PMMainViewController.swift:293-304 | Back in the foreground (observed from the first `viewDidAppear` on), pending watches queue a silent location restart and pending beacon ids a silent beacon restart; the pause ends |
| IosSdkController.PMMainViewController.Deinit | iOS/platinumaps-sdk/ViewControllers/PMMainViewController.swift:167-176 | After teardown no location, monitoring or ranging session remains |
| IosLegacyController.AppInfoArgs | iOS/ViewControllers/PMMainViewController.swift:405-413 | `userId`/`secretKey` appear iff set and non-empty; no other key |
| IosLegacyController.BrowseTarget | iOS/ViewControllers/PMMainViewController.swift:459-482 | A link with an authority or a scheme, or any link without a page, stands as written; a link with neither on a page takes the page's scheme and authority and keeps its own query and fragment |
| IosLegacyController.PMMainViewController.constructor | iOS/ViewControllers/PMMainViewController.swift:7-97 | The controller keeps its launch parameters and starts with the cover shown, scrolling enabled, no page, no session, no pending request and empty logs |
| IosLegacyController.PMMainViewController.Emit | iOS/ViewControllers/PMMainViewController.swift:587-709 | Appending an effect moves the session count only for a start or stop of updates, and the error-alert count only for an alert or reload |
| IosLegacyController.PMMainViewController.EmitOther | iOS/ViewControllers/PMMainViewController.swift:587-709 | An effect that touches neither the location session nor the error alert keeps both counts equal to their flags |
| IosLegacyController.PMMainViewController.SwitchLocation | iOS/ViewControllers/PMMainViewController.swift:612-649 | Starting or stopping location updates is logged and `isMeasuringLocation` follows |
| IosLegacyController.PMMainViewController.SwitchErrorAlert | iOS/ViewControllers/PMMainViewController.swift:355-372 | Presenting or dismissing the load-error alert is logged and `isWebViewLoadErrorVisible` follows, so at most one alert is up |
| IosLegacyController.PMMainViewController.FailLoad | iOS/ViewControllers/PMMainViewController.swift:290-295 | A failed or timed-out load leaves the error alert visible and the load untracked; loading is stopped first when it runs |
| IosLegacyController.PMMainViewController.ViewDidAppear | iOS/ViewControllers/PMMainViewController.swift:159-203 | Only the first appearance builds the page address (slug, query, insets) and loads it |
| IosLegacyController.PMMainViewController.LoadPageAddress | iOS/ViewControllers/PMMainViewController.swift:176-202 | The given address becomes the page and is loaded |
| IosLegacyController.PMMainViewController.ShowWebViewLoadErrorMessage | iOS/ViewControllers/PMMainViewController.swift:355-372 | No second alert while one is visible; otherwise loading is stopped if running and the alert is presented |
| IosLegacyController.PMMainViewController.DidStartProvisionalNavigation | iOS/ViewControllers/PMMainViewController.swift:297-320 | Before `web.ready`, a navigation start marks loading, stamps the time and posts its timeout |
| IosLegacyController.PMMainViewController.LoadTimeoutFires | iOS/ViewControllers/PMMainViewController.swift:305-318 | A timeout is consumed; only the latest load's timeout acts, and it presents the alert only before `web.ready` and when none is visible |
| IosLegacyController.PMMainViewController.DidFailProvisionalNavigation | iOS/ViewControllers/PMMainViewController.swift:290-295 | A failure while loading leaves the error alert visible; otherwise nothing changes |
| IosLegacyController.PMMainViewController.DidFinish | iOS/ViewControllers/PMMainViewController.swift:322-324 | Loading is over |
| IosLegacyController.PMMainViewController.ShowCoverImageView | iOS/ViewControllers/PMMainViewController.swift:515-528 | The cover is shown, a hidden one once |
| IosLegacyController.PMMainViewController.HideCoverImageView | iOS/ViewControllers/PMMainViewController.swift:530-552 | A shown cover fades after what is left of the minimum display time |
| IosLegacyController.PMMainViewController.OnReloadChosen | iOS/ViewControllers/PMMainViewController.swift:139-151 | Reloading shows the cover and reloads the page |
| IosLegacyController.PMMainViewController.KeyboardWillShow | iOS/ViewControllers/PMMainViewController.swift:216-236 | On the main page the web view is pinned and scrolling disabled; elsewhere nothing changes |
| IosLegacyController.PMMainViewController.KeyboardWillHide | iOS/ViewControllers/PMMainViewController.swift:237-242 | Scrolling is enabled and the web view released |
| IosLegacyController.PMMainViewController.ScrollViewDidScroll | iOS/ViewControllers/PMMainViewController.swift:387-393 | A pinned web view resets its content offset |
| IosLegacyController.PMMainViewController.DecidePolicyFor | iOS/ViewControllers/PMMainViewController.swift:326-353 | A navigation proceeds iff it is not a command and not a tapped link; a tapped web link opens in Safari, another scheme only if the system can open it |
| IosLegacyController.PMMainViewController.CommandWebReady | iOS/ViewControllers/PMMainViewController.swift:414-425 | The page is ready, loading ends, the cover hides and the launch link is handed over once |
| IosLegacyController.PMMainViewController.CommandWebWillReload | iOS/ViewControllers/PMMainViewController.swift:426-431 | The page is no longer ready, the cover shows, and the empty answer follows |
| IosLegacyController.PMMainViewController.CommandLocationAuthorize | iOS/ViewControllers/PMMainViewController.swift:436-444 | An undetermined status keeps the id and prompts; any other is answered at once |
| IosLegacyController.PMMainViewController.CommandWebBrowse | iOS/ViewControllers/PMMainViewController.swift:459-482 | `browse.app` opens externally when possible; `browse.inapp` uses an in-app browser, with shared cookies or Safari |
| IosLegacyController.PMMainViewController.OpenOther | iOS/ViewControllers/PMMainViewController.swift:483-495 | The link opens in another application |
| IosLegacyController.PMMainViewController.DispatchLocationCommand | iOS/ViewControllers/PMMainViewController.swift:432-456 | Status is answered at once; a once or watch id always joins its list; authorized, it measures, and a once request on a running session asks for one more fix; undetermined, it prompts and nothing is answered; a once request under denial is answered with every pending id; clear-watch empties the watch list |
| IosLegacyController.PMMainViewController.DispatchPageCommand | iOS/ViewControllers/PMMainViewController.swift:403-500 | The commands other than location: `app.info` answers user id and secret key; `search.focus` pins the web view; the echoing commands answer nothing themselves |
| IosLegacyController.PMMainViewController.DispatchLinkCommand | iOS/ViewControllers/PMMainViewController.swift:459-495 | `map.navigate` opens its `url` in another application and `app.review` the store page when a store id is set; nothing is answered |
| IosLegacyController.PMMainViewController.Dispatch | iOS/ViewControllers/PMMainViewController.swift:403-500 | `app.info` answers user id and secret key; `search.focus` pins the web view; the echoing commands answer nothing themselves; `location.status` answers the status; a once or watch id joins its list, and measuring runs when authorized |
| IosLegacyController.PMMainViewController.RunDecoded | iOS/ViewControllers/PMMainViewController.swift:403-512 | The echo follows exactly the echoing commands, `app.info` is answered twice, and a once or watch id joins its list with measuring running when authorized |
| IosLegacyController.PMMainViewController.RunCommand | iOS/ViewControllers/PMMainViewController.swift:396-513 | An unknown command or missing `requestId` changes nothing; an echoing command is answered empty once; `app.info` is answered twice; a once or watch id joins its list, and measuring runs when authorized |
| IosLegacyController.PMMainViewController.PushLaunchUrl | iOS/ViewControllers/PMMainViewController.swift:753-797 | Before `web.ready` the link waits; after it the page receives `app.link` and a presented screen is dismissed |
| IosLegacyController.PMMainViewController.LocationCommandCallback | iOS/ViewControllers/PMMainViewController.swift:711-747 | Every once id and then every watch id hears the same report; once ids are done; the session stops when no watch remains |
| IosLegacyController.PMMainViewController.StartLocationSession | iOS/ViewControllers/PMMainViewController.swift:612-626 | A running session is not started again (a once request asks for one fix); a new one starts with the callback state reset |
| IosLegacyController.PMMainViewController.StartLocationRequest | iOS/ViewControllers/PMMainViewController.swift:587-633 | Undetermined only prompts; authorized never starts a second session: a new one starts updating, a running one only asks for one more fix on a once request; any other status answers at once without position, a denied one behind an alert shown on every request |
| IosLegacyController.PMMainViewController.OnDeniedAlertAnswered | iOS/ViewControllers/PMMainViewController.swift:597-607 | OK opens the settings; cancel does nothing more |
| IosLegacyController.PMMainViewController.StopLocationRequest | iOS/ViewControllers/PMMainViewController.swift:641-649 | Idempotent: a running session stops exactly once |
| IosLegacyController.PMMainViewController.StopLocationRequestIfNoRequest | iOS/ViewControllers/PMMainViewController.swift:635-639 | The session stops iff no once or watch id is pending |
| IosLegacyController.PMMainViewController.AuthorizationChangedForLocation | iOS/ViewControllers/PMMainViewController.swift:651-673 | With requests pending, a grant measures (a new session starts updating; a running one asks for one more fix exactly when a watch id is pending, as written); a refusal stops it and answers every pending id without position; otherwise nothing changes |
| IosLegacyController.PMMainViewController.DidChangeAuthorization | iOS/ViewControllers/PMMainViewController.swift:651-673 | A decided status answers and forgets the waiting authorize id; an undetermined one keeps it |
| IosLegacyController.PMMainViewController.DidUpdateLocations | iOS/ViewControllers/PMMainViewController.swift:675-692 | The first fix schedules the delayed first report; fixes before it fires are dropped; later ones are reported to every id at once |
| IosLegacyController.PMMainViewController.FirstLocationCallbackFires | iOS/ViewControllers/PMMainViewController.swift:680-685 | The delayed first report reaches every id and reports flow from then on |
| IosLegacyController.PMMainViewController.DidUpdateHeading | iOS/ViewControllers/PMMainViewController.swift:694-703 | The heading is kept, and reported at once when reports flow |
| IosLegacyController.PMMainViewController.DidFailWithError | iOS/ViewControllers/PMMainViewController.swift:705-709 | Every once id and then every watch id hears the failure; both lists are emptied and the session stops |
| IosLegacyController.PMMainViewController.DidEnterBackground | iOS/ViewControllers/PMMainViewController.swift:211-213 | A running session stops in the background; the observer exists from the first `viewDidAppear` on |
| IosLegacyController.PMMainViewController.WillEnterForeground | iOS/ViewControllers/PMMainViewController.swift:205-209 | Pending watches restart measuring when authorized (observed from the first `viewDidAppear` on); without watches nothing changes |

## Left out

- Percent-encoding and percent-decoding of URI components and query values are not modelled. Values are the raw text between the delimiters.
- `android.net.Uri` belongs to the Android platform, not to this repository. Its `parse`, `buildUpon` and `build` are modelled from that class's documented behaviour: the scheme ends at the first ':', a link is opaque when no '/' follows that ':', setting an authority clears an opaque part, and `build` puts a '/' before a relative path once there is a scheme or an authority. Whether `toString` drops an empty "?" or "#" is not modelled: a present but empty query or fragment is recomposed with its delimiter.
- Foundation's `URL(string:relativeTo:)` is modelled by RFC 3986 section 5.2, including the dot-segment removal of section 5.2.4. Foundation's own departures from the RFC (for instance for a base URL without a path) are not modelled.
- IP-literal brackets in URI authorities are not treated specially.
- Floating-point and sensor arithmetic are not modelled. A compass heading is the rounded integer the page receives, and latitude, longitude and accuracy are opaque `real` readings. The CGFloat safe-area insets are integers.
- JSON serialisation of callback arguments and the JavaScript string that carries them are not modelled. An answer is the tag, the request id and a map of typed values.
- Animations are collapsed: the cover and splash fades are one effect, carrying the delay the source computes, and their completion runs at once.
- The earlier iOS `reloadWebView` goes back through the history every 300 ms before reloading. It is modelled as one `ReloadPage` effect.
- The earlier iOS controller builds `mapQuery` from a dictionary whose order Swift does not fix. The model takes the parameters in the order given.
- The iOS SDK's beacon use depends on whether its UUID string parses. The model takes the result as the `useBeacon` flag.
- `canOpenURL` is a parameter. `URL(string:)` is modelled as accepting every text: a link Foundation rejects, for which the source does nothing, is opened by the model.
- Swift `[weak self]` captures and the `gone` error after the controller is released are not modelled: every deferred step runs on a live controller.
- The order in which Swift resumes several `await`ing callers is not modelled. The waiters of the denied alert resume in arrival order.
- JavaScript alert and confirm panels, the iOS `present` override, Android `onBackPressed` and the lazy creation of the location manager are UI plumbing with no bridge state. They are not modelled.
- The SDK's `beaconBufferingWindow > 0` test is always true (the window is the constant 500 ms), so the unbuffered branch is not modelled.
- Whether the Bluetooth adapter exists is not modelled: creating the scanner is assumed to succeed.
- The file chooser (`web.filechooser`, `onShowFileChooser`, `handleFileChooserResult`) only answers the page's picker. It is left out, and `web.filechooser` is only decoded and acknowledged.
- Cookie sharing with the in-app browser is only the `sharedCookie` flag on the link handed over; the cookie store is not modelled.
- The QR reader dialog's camera pipeline (`PmQrCodeReaderDialog`) is not part of this model. Only its two outcomes, a text read or a cancel, are modelled.
- `PmWebBrowserActivity`, `PMWebViewController`, `PMLocale`, `PMError` and the sample apps' own application and scene classes are not part of this model.
- The iOS heading updates and the significant-location-change monitoring start together with location updates. They are merged into the one `StartUpdatingLocation` effect.
- The sample fragment's `onDestroyView` only releases the view. It is not modelled.
- The keyboard test on the earlier iOS controller and the sample activity runs a case-insensitive regular expression over UTF-16 text. It is modelled as an ASCII case-insensitive search over characters.
- Each platform status is read once per event, as the same parameter for every use within that event.
- The SDK's `activityDestroy` tears down only the beacon scanner, as the code does, not every registry.
- SampleMain.PmMainFragment.Dispatch: states the echo rule, that an echoing command answers nothing itself, and the `app.info` and `location.status` answers. The remaining commands (web ready and reload, the QR reader, location authorize, once and watch) are stated by the `Command*` members it calls.
- SampleMain.PmMainFragment.RunCommand: states the return code, that an undecodable request changes nothing, the echo, and the `app.info` and `location.status` answers. The other commands are stated by the `Command*` members.
- SdkWebView.PmWebView.Dispatch: states the answers given at once (`app.info`, `web.ready`, `web.willreload`, `location.status`, a granted `location.authorize` or `beacon.authorize`, a `beacon.authorize` without activity) and that an authorize that must ask keeps its id waiting. The once, watch and heading sessions are stated by the `Command*` members.
- SdkWebView.PmWebView.RunCommand: states the return code, that an undecodable request changes nothing, the echo and the answers given at once. The once, watch and heading sessions are stated by the `Command*` members.
- SampleWebView.PmWebView.RunCommand: states only that one answer with the request's tag and id is added. The `Dispatch` member states that answer's arguments.
- IosSdkController.PMMainViewController.Dispatch: states `app.info` and the echo rule. The other commands are stated by `DispatchSensorCommand`, `CommandWebReady`, `CommandWebWillReload` and `CommandWebBrowse`.
- IosLegacyController.PMMainViewController.Dispatch: states `app.info`, `search.focus`, the echo rule, the `location.status` answer and how once and watch ids join their lists and start measuring. The location prompt and refusal answers are stated by `DispatchLocationCommand`, and the other commands by the `Command*` members.
- IosSdkController.PMMainViewController.DidChangeAuthorization: states the authorize answer that it queues last. The location and beacon follow-ups are stated by `AuthorizationChangedForLocation` and `AuthorizationChangedForBeacons`.
- IosSdkController.PMMainViewController.AuthorizationChangedForBeacons: on a grant, states only that monitoring runs when beacons are configured and that nothing is queued.
- IosLegacyController.PMMainViewController.WillEnterForeground: with pending watches, states only that measuring runs when authorized. The other statuses follow `StartLocationRequest`.
- IosLegacyController.PMMainViewController.DidFailProvisionalNavigation: states only that the error alert is visible after a failure during a load.
- IosLegacyController.PMMainViewController.LoadTimeoutFires: states that only the latest load's timeout acts, and that an alert appears only before `web.ready` with none visible. It does not state which alert effects are logged.

## Findings

| source | as written | input that shows it | evidently intended | confidence | as-written member | corrected member |
|---|---|---|---|---|---|---|
| iOS/platinumaps-sdk/ViewControllers/PMMainViewController.swift:920-965 | `didFailWithError` stops the session and empties `locationWatchRequestIds` at once, but the error answer goes out later in a `Task` (line 939), which reads the list after it is empty | one `location.watch` request `w`, no `location.once` request, then a location provider failure, then the queued task runs: `w` never hears `hasError` | every pending once id and then every watch id hears the failure, as in the earlier controller (iOS/ViewControllers/PMMainViewController.swift:705-709) | not executed | IosSdkController.PMMainViewController.FailureReportAsWritten | IosSdkController.PMMainViewController.FailureReportCorrected |
| iOS/platinumaps-sdk/ViewControllers/PMMainViewController.swift:846-860 | on a refusal with requests pending, `didChangeAuthorization` stops the session, queues the answer without position in a `Task` (line 939) and empties `locationWatchRequestIds` at once, so the queued answer reads an empty watch list | one `location.watch` request `w`, no `location.once` request, then the user turns location access off, then the queued task runs: `w` never hears the refusal | every pending once id and then every watch id hears the refusal, as in the earlier controller (iOS/ViewControllers/PMMainViewController.swift:659-662) | not executed | IosSdkController.PMMainViewController.RefusalReportAsWritten | IosSdkController.PMMainViewController.RefusalReportCorrected |
