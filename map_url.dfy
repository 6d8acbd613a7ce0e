// The map options (PmMapOptions, PmMapBeaconOptions) and the four builders
// that turn them into the map page address: the Android SDK's, the sample
// web view's, the sample fragment's and the iOS controller's. The address is kept structured: the
// path appended to the base and the query parameters in the order the
// builder appends them (percent-encoding is not part of this model).
module MapUrl {
  import opened Common
  import opened Uri

  /** Beacon settings: the proximity UUID to listen for and optional page
    * parameters. */
  datatype MapBeaconOptions = MapBeaconOptions(
    uuid: string, minSample: Option<int>, maxHistory: Option<int>, memo: Option<string>)

  /** One query parameter, as `appendQueryParameter` adds it. */
  datatype Param = Param(name: string, value: string)

  /** Map settings; `queryParams` is the option map's entries in its
    * iteration order. */
  datatype MapOptions = MapOptions(
    mapPath: string, queryParams: Option<seq<Param>>, safeAreaTop: int, safeAreaBottom: int,
    beacon: Option<MapBeaconOptions>)

  /** The Kotlin constructor called with the mandatory argument only. */
  function DefaultMapOptions(mapPath: string): (o: MapOptions)
    ensures o.mapPath == mapPath && o.queryParams.None? && o.beacon.None?
    ensures o.safeAreaTop == 0 && o.safeAreaBottom == 0
  {
    MapOptions(mapPath, None, 0, 0, None)
  }

  function DefaultBeaconOptions(uuid: string): (b: MapBeaconOptions)
    ensures b.uuid == uuid && b.minSample.None? && b.maxHistory.None? && b.memo.None?
  {
    MapBeaconOptions(uuid, None, None, None)
  }

  const BaseUrl := "https://platinumaps.jp/maps/"

  /** The built address: BaseUrl with `path` appended, then `query`. */
  datatype MapLink = MapLink(path: string, query: seq<Param>)

  /** The page address as a URI: scheme and authority of the base URL. */
  function LinkUri(link: MapLink): (u: Uri)
    ensures u.scheme == Some("https") && u.authority == Some("platinumaps.jp")
    ensures u.path == "/maps/" + link.path
    ensures u.query.Some? <==> |link.query| > 0
  {
    Uri(Some("https"), Some("platinumaps.jp"), "/maps/" + link.path,
        if |link.query| == 0 then None else Some(QueryString(link.query)), None)
  }

  // ---------------------------------------------------------------------
  // The legacy query string "k1=v1&k2=v2"
  // ---------------------------------------------------------------------

  /** SDK reading of one item: `split('=', limit = 2)` gives two parts and
    * the name is not empty; the value keeps any further '='. */
  function SdkQueryItem(item: string): Option<Param> {
    match SplitFirst(item, '=')
    case None => None
    case Some(parts) => if parts.0 != "" then Some(Param(parts.0, parts.1)) else None
  }

  /** Sample reading of one item: `split('=')` must give exactly two parts. */
  function LegacyQueryItem(item: string): Option<Param> {
    var parts := Split(item, '=');
    if |parts| == 2 then Some(Param(parts[0], parts[1])) else None
  }

  function ItemText(p: Param): string {
    p.name + "=" + p.value
  }

  /** The SDK keeps exactly the items "k=v" with a non-empty k free of '=';
    * v may hold '='. */
  lemma SdkItemMeaning(item: string, p: Param)
    ensures SdkQueryItem(item) == Some(p) <==> item == ItemText(p) && p.name != "" && '=' !in p.name
  {
    if item == ItemText(p) && p.name != "" && '=' !in p.name {
      SplitFirstUnique(item, '=', p.name, p.value);
    }
  }

  /** The sample keeps exactly the items "k=v" with neither k nor v holding
    * '='; k may be empty. */
  lemma LegacyItemMeaning(item: string, p: Param)
    ensures LegacyQueryItem(item) == Some(p) <==> item == ItemText(p) && '=' !in p.name && '=' !in p.value
  {
    var parts := Split(item, '=');
    if LegacyQueryItem(item) == Some(p) {
      JoinSplit(item, '=');
      assert parts[1..] == [p.value];
      assert Join(parts, '=') == p.name + ['='] + p.value;
      assert 0 < |parts| && '=' !in parts[0] && '=' !in parts[1];
    }
    if item == ItemText(p) && '=' !in p.name && '=' !in p.value {
      var pieces := [p.name, p.value];
      assert Join(pieces, '=') == item by {
        assert pieces[1..] == [p.value];
      }
      SplitJoin(pieces, '=');
    }
  }

  /** The first '=' of "k=v" is the one after k when k holds none. */
  lemma SplitFirstUnique(s: string, c: char, a: string, b: string)
    requires s == a + [c] + b && c !in a
    ensures SplitFirst(s, c) == Some((a, b))
  {
    assert s[|a|] == c;
    var r := SplitFirst(s, c);
    var x, y := r.value.0, r.value.1;
    assert s == x + [c] + y && c !in x;
    assert forall k :: 0 <= k < |a| ==> s[k] == a[k];
    assert forall k :: 0 <= k < |x| ==> s[k] == x[k];
    assert s[|x|] == c;
    assert |x| == |a|;
    assert x == s[..|a|] == a;
    assert y == s[|a| + 1..] == b;
  }

  /** The parameters kept from a list of items, in order (recursion on the
    * last item, as the loop consumes them). */
  function SdkParams(items: seq<string>): (ps: seq<Param>)
    ensures |ps| <= |items|
  {
    if |items| == 0 then []
    else
      var last := items[|items| - 1];
      SdkParams(items[..|items| - 1])
        + (match SdkQueryItem(last) case Some(p) => [p] case None => [])
  }

  function LegacyParams(items: seq<string>): (ps: seq<Param>)
    ensures |ps| <= |items|
  {
    if |items| == 0 then []
    else
      var last := items[|items| - 1];
      LegacyParams(items[..|items| - 1])
        + (match LegacyQueryItem(last) case Some(p) => [p] case None => [])
  }

  /** A query string built from parameters. */
  function QueryString(ps: seq<Param>): string
    requires |ps| >= 1
  {
    Join(Texts(ps), '&')
  }

  function Texts(ps: seq<Param>): (ts: seq<string>)
    ensures |ts| == |ps|
    ensures forall i :: 0 <= i < |ps| ==> ts[i] == ItemText(ps[i])
  {
    seq(|ps|, i requires 0 <= i < |ps| => ItemText(ps[i]))
  }

  /** Parameters the SDK can carry through a query string: a name that is
    * not empty and holds neither '=' nor '&', a value without '&'. */
  predicate SdkCarries(p: Param) {
    p.name != "" && '=' !in p.name && '&' !in p.name && '&' !in p.value
  }

  /** Parameters the sample builders carry: no '=' and no '&' anywhere. */
  predicate LegacyCarries(p: Param) {
    '=' !in p.name && '&' !in p.name && '=' !in p.value && '&' !in p.value
  }

  /** The SDK reads back every parameter of a query string it can carry,
    * values holding '=' included. */
  lemma SdkQueryRoundTrip(ps: seq<Param>)
    requires |ps| >= 1
    requires forall i :: 0 <= i < |ps| ==> SdkCarries(ps[i])
    ensures SdkParams(Split(QueryString(ps), '&')) == ps
  {
    var ts := Texts(ps);
    forall i | 0 <= i < |ts| ensures '&' !in ts[i] {
      assert ts[i] == ps[i].name + "=" + ps[i].value;
    }
    SplitJoin(ts, '&');
    SdkParamsOfTexts(ps);
  }

  lemma {:induction false} SdkParamsOfTexts(ps: seq<Param>)
    requires forall i :: 0 <= i < |ps| ==> SdkCarries(ps[i])
    ensures SdkParams(Texts(ps)) == ps
  {
    if |ps| > 0 {
      var init := ps[..|ps| - 1];
      assert Texts(ps)[..|ps| - 1] == Texts(init);
      SdkParamsOfTexts(init);
      SdkItemMeaning(ItemText(ps[|ps| - 1]), ps[|ps| - 1]);
      assert ps == init + [ps[|ps| - 1]];
    }
  }

  /** The sample builders read back every parameter free of '=' and '&'. */
  lemma LegacyQueryRoundTrip(ps: seq<Param>)
    requires |ps| >= 1
    requires forall i :: 0 <= i < |ps| ==> LegacyCarries(ps[i])
    ensures LegacyParams(Split(QueryString(ps), '&')) == ps
  {
    var ts := Texts(ps);
    forall i | 0 <= i < |ts| ensures '&' !in ts[i] {
      assert ts[i] == ps[i].name + "=" + ps[i].value;
    }
    SplitJoin(ts, '&');
    LegacyParamsOfTexts(ps);
  }

  lemma {:induction false} LegacyParamsOfTexts(ps: seq<Param>)
    requires forall i :: 0 <= i < |ps| ==> LegacyCarries(ps[i])
    ensures LegacyParams(Texts(ps)) == ps
  {
    if |ps| > 0 {
      var init := ps[..|ps| - 1];
      assert Texts(ps)[..|ps| - 1] == Texts(init);
      LegacyParamsOfTexts(init);
      LegacyItemMeaning(ItemText(ps[|ps| - 1]), ps[|ps| - 1]);
      assert ps == init + [ps[|ps| - 1]];
    }
  }

  /** Where the generations part: an item whose value holds '=' is kept
    * whole by the SDK and dropped by the samples. */
  lemma ValueWithEqualsSign(name: string, value: string)
    requires name != "" && '=' !in name && '=' in value
    ensures SdkQueryItem(name + "=" + value) == Some(Param(name, value))
    ensures LegacyQueryItem(name + "=" + value) == None
  {
    SdkItemMeaning(name + "=" + value, Param(name, value));
    SplitAfterSeparator(name, '=', value);
    SplitOfSeparated(value, '=');
    assert |Split(name + "=" + value, '=')| >= 3;
  }

  /** Text before the first separator becomes the first piece. */
  lemma {:induction false} SplitAfterSeparator(a: string, c: char, b: string)
    requires c !in a
    ensures Split(a + [c] + b, c) == [a] + Split(b, c)
    decreases |a|
  {
    var s := a + [c] + b;
    if |a| == 0 {
      assert s[1..] == b;
    } else {
      assert s[1..] == a[1..] + [c] + b;
      assert c !in a[1..] by { assert forall k :: 0 <= k < |a[1..]| ==> a[1..][k] == a[k + 1]; }
      SplitAfterSeparator(a[1..], c, b);
      assert [s[0]] + a[1..] == a;
    }
  }

  /** A text holding the separator splits into at least two pieces. */
  lemma SplitOfSeparated(s: string, c: char)
    requires c in s
    ensures |Split(s, c)| >= 2
  {
    JoinSplit(s, c);
  }

  /** Kotlin's `isBlank` for the characters a query string can hold. */
  predicate IsBlank(s: string) {
    forall i :: 0 <= i < |s| ==> s[i] in {' ', '\t', '\n', '\r', '\U{0B}', '\U{0C}'}
  }

  /** Every piece of a split lacks a character its text lacks. */
  lemma {:induction false} SplitKeepsOut(s: string, c: char, d: char)
    requires d !in s
    ensures forall i :: 0 <= i < |Split(s, c)| ==> d !in Split(s, c)[i]
    decreases |s|
  {
    if |s| > 0 {
      assert d !in s[1..] by { assert forall k :: 0 <= k < |s[1..]| ==> s[1..][k] == s[k + 1]; }
      SplitKeepsOut(s[1..], c, d);
    }
  }

  lemma {:induction false} SdkParamsWithoutEquals(items: seq<string>)
    requires forall i :: 0 <= i < |items| ==> '=' !in items[i]
    ensures SdkParams(items) == []
  {
    if |items| > 0 {
      SdkParamsWithoutEquals(items[..|items| - 1]);
    }
  }

  /** The SDK's `isNotBlank` guard changes nothing: a blank query string
    * has no '=' and so no item would be kept from it anyway. */
  lemma BlankQueryAddsNothing(q: string)
    requires IsBlank(q)
    ensures SdkParams(Split(q, '&')) == []
  {
    assert '=' !in q;
    SplitKeepsOut(q, '&', '=');
    SdkParamsWithoutEquals(Split(q, '&'));
  }

  /** The loop of the SDK builder over `query.split('&')`. */
  method SdkQueryParams(q: string) returns (ps: seq<Param>)
    ensures ps == SdkParams(Split(q, '&'))
  {
    var items := Split(q, '&');
    ps := [];
    var k := 0;
    while k < |items|
      invariant 0 <= k <= |items|
      invariant ps == SdkParams(items[..k])
    {
      assert items[..k + 1][..k] == items[..k];
      var item := SdkQueryItem(items[k]);
      if item.Some? {
        ps := ps + [item.value];
      }
      k := k + 1;
    }
    assert items[..k] == items;
  }

  /** The loop of the sample builders over `query.split('&')`. */
  method LegacyQueryParams(q: string) returns (ps: seq<Param>)
    ensures ps == LegacyParams(Split(q, '&'))
  {
    var items := Split(q, '&');
    ps := [];
    var k := 0;
    while k < |items|
      invariant 0 <= k <= |items|
      invariant ps == LegacyParams(items[..k])
    {
      assert items[..k + 1][..k] == items[..k];
      var parts := Split(items[k], '=');
      if |parts| == 2 {
        ps := ps + [Param(parts[0], parts[1])];
      }
      k := k + 1;
    }
    assert items[..k] == items;
  }

  // ---------------------------------------------------------------------
  // The safe-area parameter
  // ---------------------------------------------------------------------

  /** "top,bottom" in decimal. */
  function SafeAreaText(top: int, bottom: int): string {
    Decimal(top) + "," + Decimal(bottom)
  }

  /** How the page reads the safe-area parameter back. */
  function ParseSafeArea(s: string): Option<(int, int)> {
    match SplitFirst(s, ',')
    case None => None
    case Some(parts) =>
      match (ParseDecimal(parts.0), ParseDecimal(parts.1))
      case (Some(t), Some(b)) => Some((t, b))
      case _ => None
  }

  lemma DecimalHasNoComma(n: int)
    ensures ',' !in Decimal(n)
  {
    var s := Decimal(n);
    if n < 0 {
      assert s == "-" + NatDecimal(-n);
      assert forall i :: 1 <= i < |s| ==> s[i] == NatDecimal(-n)[i - 1];
    }
  }

  /** The safe-area text reads back to the two insets. */
  lemma SafeAreaRoundTrip(top: int, bottom: int)
    ensures ParseSafeArea(SafeAreaText(top, bottom)) == Some((top, bottom))
  {
    DecimalHasNoComma(top);
    SplitFirstUnique(SafeAreaText(top, bottom), ',', Decimal(top), Decimal(bottom));
    DecimalRoundTrip(top);
    DecimalRoundTrip(bottom);
  }

  // ---------------------------------------------------------------------
  // The three builders
  // ---------------------------------------------------------------------

  /** Page parameters of the beacon options, each only when set. */
  function BeaconParams(beacon: Option<MapBeaconOptions>): (ps: seq<Param>)
    ensures beacon.None? ==> ps == []
    ensures |ps| <= 3
  {
    match beacon
    case None => []
    case Some(b) =>
      (match b.minSample case Some(n) => [Param("beaconminsample", Decimal(n))] case None => [])
      + (match b.maxHistory case Some(n) => [Param("beaconmaxhistory", Decimal(n))] case None => [])
      + (match b.memo case Some(m) => [Param("memo", m)] case None => [])
  }

  /** The SDK's `openPlatinumaps(options, queryPrams)`: `native=1`, the items
    * of a non-blank legacy query string, the option map's entries, the
    * safe area, then the beacon parameters. */
  function SdkMapLink(options: MapOptions, queryPrams: Option<string>): MapLink {
    var legacy := if queryPrams.Some? && !IsBlank(queryPrams.value)
      then SdkParams(Split(queryPrams.value, '&')) else [];
    MapLink(options.mapPath,
      [Param("native", "1")] + legacy + options.queryParams.GetOr([])
      + [Param("safearea", SafeAreaText(options.safeAreaTop, options.safeAreaBottom))]
      + BeaconParams(options.beacon))
  }

  /** The sample web view's `openPlatinumaps`: `native=2`, the items that
    * split into exactly two parts, then the safe area. */
  function SampleMapLink(pagePath: string, mapQuery: Option<string>, top: int, bottom: int): MapLink {
    var legacy := if mapQuery.Some? then LegacyParams(Split(mapQuery.value, '&')) else [];
    MapLink(pagePath, [Param("native", "2")] + legacy + [Param("safearea", SafeAreaText(top, bottom))])
  }

  /** The inset the fragment reports: its own when positive, otherwise the
    * status bar height. */
  function FragmentTop(safeAreaTop: int, statusBarHeight: int): int {
    if safeAreaTop <= 0 then statusBarHeight else safeAreaTop
  }

  /** The sample fragment's address: `native=1`, the two-part items, then
    * `safearea=<top>,0`. */
  function FragmentMapLink(mapSlug: string, mapQuery: Option<string>, top: int): MapLink {
    var legacy := if mapQuery.Some? then LegacyParams(Split(mapQuery.value, '&')) else [];
    MapLink(mapSlug, [Param("native", "1")] + legacy + [Param("safearea", SafeAreaText(top, 0))])
  }

  /** The iOS controller's address (`viewDidAppear`): the optional
    * `culture`, `native=1`, the `mapQuery` entries in the dictionary's
    * iteration order, then the safe area, whose bottom is 0 whenever a
    * bottom offset is set. */
  function IosMapLink(mapSlug: string, culture: Option<string>, mapQuery: seq<Param>, top: int, bottom: int,
                      offsetBottom: int): MapLink {
    var locale := if culture.Some? then [Param("culture", culture.value)] else [];
    var safeBottom := if offsetBottom > 0 then 0 else bottom;
    MapLink(mapSlug, locale + [Param("native", "1")] + mapQuery + [Param("safearea", SafeAreaText(top, safeBottom))])
  }

  /** With default options and no query string the SDK asks for the map
    * with `native=1` and a zero safe area only; there is no beacon
    * parameter. */
  lemma DefaultOptionsLink(mapPath: string)
    ensures SdkMapLink(DefaultMapOptions(mapPath), None)
      == MapLink(mapPath, [Param("native", "1"), Param("safearea", "0,0")])
  {
    assert SafeAreaText(0, 0) == "0,0";
  }

  /** What the SDK address carries: `native=1` first, then the parameters
    * of a well-formed query string unchanged and in order, the option
    * entries, the safe area that reads back to the two insets, and the
    * beacon parameters last. */
  lemma SdkMapLinkCarries(options: MapOptions, ps: seq<Param>)
    requires |ps| >= 1 && forall i :: 0 <= i < |ps| ==> SdkCarries(ps[i])
    ensures var link := SdkMapLink(options, Some(QueryString(ps)));
      var entries := options.queryParams.GetOr([]);
      var n := 1 + |ps| + |entries|;
      link.path == options.mapPath
      && |link.query| == n + 1 + |BeaconParams(options.beacon)|
      && link.query[0] == Param("native", "1")
      && link.query[1..1 + |ps|] == ps
      && link.query[1 + |ps|..n] == entries
      && link.query[n].name == "safearea"
      && ParseSafeArea(link.query[n].value) == Some((options.safeAreaTop, options.safeAreaBottom))
      && link.query[n + 1..] == BeaconParams(options.beacon)
  {
    SdkMapLinkQuery(options, ps);
    SdkLayout(SdkMapLink(options, Some(QueryString(ps))), options, ps);
  }

  /** The positions of an SDK address whose query is that concatenation. */
  lemma SdkLayout(link: MapLink, options: MapOptions, ps: seq<Param>)
    requires link.path == options.mapPath
    requires link.query == [Param("native", "1")] + ps + options.queryParams.GetOr([])
      + [Param("safearea", SafeAreaText(options.safeAreaTop, options.safeAreaBottom))]
      + BeaconParams(options.beacon)
    ensures var entries := options.queryParams.GetOr([]);
      var n := 1 + |ps| + |entries|;
      |link.query| == n + 1 + |BeaconParams(options.beacon)|
      && link.query[0] == Param("native", "1")
      && link.query[1..1 + |ps|] == ps
      && link.query[1 + |ps|..n] == entries
      && link.query[n].name == "safearea"
      && ParseSafeArea(link.query[n].value) == Some((options.safeAreaTop, options.safeAreaBottom))
      && link.query[n + 1..] == BeaconParams(options.beacon)
  {
    SafeAreaRoundTrip(options.safeAreaTop, options.safeAreaBottom);
    var safe := Param("safearea", SafeAreaText(options.safeAreaTop, options.safeAreaBottom));
    Layout(link.query, Param("native", "1"), ps, options.queryParams.GetOr([]), safe, BeaconParams(options.beacon));
  }

  /** The query of the SDK address built from a query string of carried
    * parameters, as one concatenation. */
  lemma SdkMapLinkQuery(options: MapOptions, ps: seq<Param>)
    requires |ps| >= 1 && forall i :: 0 <= i < |ps| ==> SdkCarries(ps[i])
    ensures SdkMapLink(options, Some(QueryString(ps))).path == options.mapPath
    ensures SdkMapLink(options, Some(QueryString(ps))).query
      == [Param("native", "1")] + ps + options.queryParams.GetOr([])
         + [Param("safearea", SafeAreaText(options.safeAreaTop, options.safeAreaBottom))]
         + BeaconParams(options.beacon)
  {
    SdkQueryRoundTrip(ps);
    QueryStringNotBlank(ps);
  }

  /** Positions in a query laid out as head, two runs, one parameter and a
    * tail. */
  lemma Layout(q: seq<Param>, head: Param, xs: seq<Param>, ys: seq<Param>, mid: Param, tail: seq<Param>)
    requires q == [head] + xs + ys + [mid] + tail
    ensures var n := 1 + |xs| + |ys|;
      |q| == n + 1 + |tail| && q[0] == head && q[1..1 + |xs|] == xs && q[1 + |xs|..n] == ys
      && q[n] == mid && q[n + 1..] == tail
  {
  }

  /** A query string holds an '=' and so is not blank. */
  lemma QueryStringNotBlank(ps: seq<Param>)
    requires |ps| >= 1
    ensures !IsBlank(QueryString(ps))
  {
    var q := QueryString(ps);
    var first := Texts(ps)[0];
    assert first <= q;
    assert first[|ps[0].name|] == '=';
    assert q[|ps[0].name|] == '=';
  }

  /** What the sample web view address carries: `native=2`, the parameters
    * of a query string free of '=' in names and values, and the safe area. */
  lemma SampleMapLinkCarries(pagePath: string, ps: seq<Param>, top: int, bottom: int)
    requires |ps| >= 1 && forall i :: 0 <= i < |ps| ==> LegacyCarries(ps[i])
    ensures var link := SampleMapLink(pagePath, Some(QueryString(ps)), top, bottom);
      link.path == pagePath && |link.query| == |ps| + 2
      && link.query[0] == Param("native", "2")
      && link.query[1..|ps| + 1] == ps
      && link.query[|ps| + 1].name == "safearea"
      && ParseSafeArea(link.query[|ps| + 1].value) == Some((top, bottom))
  {
    LegacyQueryRoundTrip(ps);
    SafeAreaRoundTrip(top, bottom);
  }

  /** The fragment reports a positive inset as is and otherwise the status
    * bar height; the bottom inset is always 0. */
  lemma FragmentMapLinkSafeArea(mapSlug: string, mapQuery: Option<string>, safeAreaTop: int, statusBarHeight: int)
    ensures var link := FragmentMapLink(mapSlug, mapQuery, FragmentTop(safeAreaTop, statusBarHeight));
      link.query[0] == Param("native", "1")
      && link.query[|link.query| - 1].name == "safearea"
      && ParseSafeArea(link.query[|link.query| - 1].value)
        == Some((if safeAreaTop > 0 then safeAreaTop else statusBarHeight, 0))
  {
    SafeAreaRoundTrip(FragmentTop(safeAreaTop, statusBarHeight), 0);
  }

  /** What the iOS address carries: the culture only when one is chosen,
    * `native=1`, the query entries unchanged and in order, and last the
    * safe area, which reads back to the top inset and to the bottom one
    * unless a bottom offset replaces it by 0. */
  lemma IosMapLinkCarries(mapSlug: string, culture: Option<string>, mapQuery: seq<Param>, top: int, bottom: int,
                          offsetBottom: int)
    ensures var link := IosMapLink(mapSlug, culture, mapQuery, top, bottom, offsetBottom);
      var c := if culture.Some? then 1 else 0;
      link.path == mapSlug && |link.query| == c + |mapQuery| + 2
      && (culture.Some? ==> link.query[0] == Param("culture", culture.value))
      && link.query[c] == Param("native", "1")
      && link.query[c + 1..c + 1 + |mapQuery|] == mapQuery
      && link.query[c + 1 + |mapQuery|].name == "safearea"
      && ParseSafeArea(link.query[c + 1 + |mapQuery|].value)
        == Some((top, if offsetBottom > 0 then 0 else bottom))
  {
    var safeBottom := if offsetBottom > 0 then 0 else bottom;
    SafeAreaRoundTrip(top, safeBottom);
    var locale := if culture.Some? then [Param("culture", culture.value)] else [];
    IosLayout(IosMapLink(mapSlug, culture, mapQuery, top, bottom, offsetBottom).query, locale, Param("native", "1"),
              mapQuery, Param("safearea", SafeAreaText(top, safeBottom)));
  }

  /** Positions in a query laid out as an optional head, one parameter, a
    * run and a last parameter. */
  lemma IosLayout(q: seq<Param>, locale: seq<Param>, head: Param, xs: seq<Param>, last: Param)
    requires q == locale + [head] + xs + [last]
    ensures var c := |locale|;
      |q| == c + |xs| + 2 && (c > 0 ==> q[0] == locale[0]) && q[c] == head
      && q[c + 1..c + 1 + |xs|] == xs && q[c + 1 + |xs|] == last
  {
  }
}
