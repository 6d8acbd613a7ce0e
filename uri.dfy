// URI components as the bridges read them: the five components of section 3
// of RFC 3986 (split as in its Appendix B and recomposed as in its section
// 5.3), the host inside an authority, query items, the two ways the
// platforms look a query parameter up, the browse-URL resolution of the
// Android bridges and the reference resolution of section 5.2 of RFC 3986
// that iOS applies to a relative link.
module Uri {
  import opened Common

  datatype Uri = Uri(
    scheme: Option<string>,
    authority: Option<string>,
    path: string,
    query: Option<string>,
    fragment: Option<string>)

  /** Length of the longest prefix of `s` free of the characters in `stops`. */
  function Span(s: string, stops: set<char>): (k: nat)
    ensures k <= |s|
    ensures forall i :: 0 <= i < k ==> s[i] !in stops
    ensures k < |s| ==> s[k] in stops
  {
    if |s| == 0 || s[0] in stops then 0 else 1 + Span(s[1..], stops)
  }

  /** Scheme: a non-empty run free of ":/?#" that a ':' ends. */
  function SplitScheme(s: string): (Option<string>, string) {
    var k := Span(s, {':', '/', '?', '#'});
    if 0 < k < |s| && s[k] == ':' then (Some(s[..k]), s[k + 1..]) else (None, s)
  }

  /** Authority: after "//", up to the next '/', '?' or '#'. */
  function SplitAuthority(s: string): (Option<string>, string) {
    if |s| >= 2 && s[..2] == "//" then
      var a := Span(s[2..], {'/', '?', '#'});
      (Some(s[2..2 + a]), s[2 + a..])
    else (None, s)
  }

  /** Query: after '?', up to the next '#'. */
  function SplitQuery(s: string): (Option<string>, string) {
    if |s| > 0 && s[0] == '?' then
      var q := Span(s[1..], {'#'});
      (Some(s[1..1 + q]), s[1 + q..])
    else (None, s)
  }

  /** Path, query and fragment of what follows the authority. */
  function SplitTail(r: string): (t: Uri)
    ensures t.scheme.None? && t.authority.None?
  {
    var p := Span(r, {'?', '#'});
    var q := SplitQuery(r[p..]);
    var fragment := if |q.1| > 0 then Some(q.1[1..]) else None;
    Uri(None, None, r[..p], q.0, fragment)
  }

  /** Splits a URI reference into its five components. */
  function Parse(s: string): Uri {
    var sc := SplitScheme(s);
    var au := SplitAuthority(sc.1);
    SplitTail(au.1).(scheme := sc.0, authority := au.0)
  }

  function Prefixed(before: string, part: Option<string>, after: string): string {
    match part
    case None => ""
    case Some(x) => before + x + after
  }

  /** Path, query and fragment written out. */
  function RecomposeTail(u: Uri): string {
    u.path + (Prefixed("?", u.query, "") + Prefixed("#", u.fragment, ""))
  }

  /** Section 5.3 of RFC 3986: the components written out again. */
  function Recompose(u: Uri): string {
    Prefixed("", u.scheme, ":") + (Prefixed("//", u.authority, "") + RecomposeTail(u))
  }

  lemma SchemeRestores(s: string)
    ensures Prefixed("", SplitScheme(s).0, ":") + SplitScheme(s).1 == s
  {
    var k := Span(s, {':', '/', '?', '#'});
    if 0 < k < |s| && s[k] == ':' {
      assert s == s[..k] + ":" + s[k + 1..];
    }
  }

  lemma AuthorityRestores(s: string)
    ensures Prefixed("//", SplitAuthority(s).0, "") + SplitAuthority(s).1 == s
  {
    if |s| >= 2 && s[..2] == "//" {
      var a := Span(s[2..], {'/', '?', '#'});
      assert s == s[..2] + s[2..2 + a] + s[2 + a..];
    }
  }

  lemma QueryRestores(s: string)
    ensures Prefixed("?", SplitQuery(s).0, "") + SplitQuery(s).1 == s
  {
    if |s| > 0 && s[0] == '?' {
      var k := Span(s[1..], {'#'});
      assert s == "?" + s[1..1 + k] + s[1 + k..];
    }
  }

  lemma FragmentRestores(s: string)
    requires |s| > 0 ==> s[0] == '#'
    ensures Prefixed("#", if |s| > 0 then Some(s[1..]) else None, "") == s
  {
    if |s| > 0 {
      assert s == "#" + s[1..];
    }
  }

  /** What follows the query starts a fragment, or is empty. */
  lemma QueryRemainder(rest: string)
    requires |rest| > 0 ==> rest[0] == '?' || rest[0] == '#'
    ensures |SplitQuery(rest).1| > 0 ==> SplitQuery(rest).1[0] == '#'
  {
    if |rest| > 0 && rest[0] == '?' {
      var k := Span(rest[1..], {'#'});
      assert SplitQuery(rest).1 == rest[1 + k..];
    }
  }

  /** Path, query and fragment written out again give back what followed
    * the path. */
  lemma QueryFragmentRestore(rest: string)
    requires |rest| > 0 ==> rest[0] == '?' || rest[0] == '#'
    ensures var q := SplitQuery(rest);
      Prefixed("?", q.0, "") + Prefixed("#", if |q.1| > 0 then Some(q.1[1..]) else None, "") == rest
  {
    QueryRestores(rest);
    QueryRemainder(rest);
    FragmentRestores(SplitQuery(rest).1);
  }

  lemma TailRestoresAt(r: string, p: nat)
    requires p <= |r| && (p < |r| ==> r[p] == '?' || r[p] == '#')
    ensures var q := SplitQuery(r[p..]);
      RecomposeTail(Uri(None, None, r[..p], q.0, if |q.1| > 0 then Some(q.1[1..]) else None)) == r
  {
    QueryFragmentRestore(r[p..]);
    assert r == r[..p] + r[p..];
  }

  lemma TailRestores(r: string)
    ensures RecomposeTail(SplitTail(r)) == r
  {
    TailRestoresAt(r, Span(r, {'?', '#'}));
  }

  /** Recomposing the parsed components gives back the original text: the
    * split loses and invents nothing. */
  lemma ParseRecompose(s: string)
    ensures Recompose(Parse(s)) == s
  {
    var sc := SplitScheme(s);
    var au := SplitAuthority(sc.1);
    SchemeRestores(s);
    AuthorityRestores(sc.1);
    TailRestores(au.1);
    var u := Parse(s);
    assert RecomposeTail(u) == RecomposeTail(SplitTail(au.1));
  }

  /** The host inside an authority: the user information up to the last '@'
    * and a port after ':' are dropped (IP-literal brackets are not modelled). */
  function HostOf(authority: string): (host: string)
    ensures |host| <= |authority|
    ensures '@' !in authority && ':' !in authority ==> host == authority
  {
    var afterUser := LastAfter(authority, '@');
    match IndexOf(afterUser, ':')
    case None => afterUser
    case Some(k) => afterUser[..k]
  }

  /** The text after the last `c`, or all of `s` when `c` does not occur. */
  function LastAfter(s: string, c: char): (r: string)
    ensures |r| <= |s| && c !in r
    ensures c !in s ==> r == s
    decreases |s|
  {
    if c !in s then s
    else
      match IndexOf(s, c)
      case None => s
      case Some(k) => LastAfter(s[k + 1..], c)
  }

  /** The host of a URI (Android's `Uri.host`, Foundation's `URL.host`). */
  function Host(u: Uri): Option<string> {
    match u.authority
    case None => None
    case Some(a) => Some(HostOf(a))
  }

  // ---------------------------------------------------------------------
  // Query items
  // ---------------------------------------------------------------------

  /** A query item; `value` is None when the item has no '='. */
  datatype QueryItem = QueryItem(name: string, value: Option<string>)

  function ItemOf(piece: string): (item: QueryItem)
    ensures item.value.None? <==> '=' !in piece
  {
    match SplitFirst(piece, '=')
    case None => QueryItem(piece, None)
    case Some((n, v)) => QueryItem(n, Some(v))
  }

  /** The '&'-separated items of a query, each split at its first '='. */
  function Items(query: string): (items: seq<QueryItem>)
    ensures |items| == |Split(query, '&')|
    ensures forall i :: 0 <= i < |items| ==> items[i] == ItemOf(Split(query, '&')[i])
  {
    var pieces := Split(query, '&');
    seq(|pieces|, i requires 0 <= i < |pieces| => ItemOf(pieces[i]))
  }

  /** The query items of a URI; none when it has no query. */
  function QueryItems(u: Uri): seq<QueryItem> {
    match u.query
    case None => []
    case Some(q) => Items(q)
  }

  /** Android `Uri.getQueryParameter`: the value of the FIRST item with that
    * name, "" for an item without '='; None when no item has the name
    * (percent-decoding is not modelled). */
  function FirstValue(items: seq<QueryItem>, name: string): (r: Option<string>)
    ensures r.None? <==> forall i :: 0 <= i < |items| ==> items[i].name != name
    ensures r.Some? ==> exists i :: (0 <= i < |items| && items[i].name == name
      && r.value == items[i].value.GetOr("")
      && forall j :: 0 <= j < i ==> items[j].name != name)
  {
    if |items| == 0 then None
    else if items[0].name == name then
      Some(items[0].value.GetOr(""))
    else
      var r := FirstValue(items[1..], name);
      if r.Some? then
        var i :| 0 <= i < |items[1..]| && items[1..][i].name == name
          && r.value == items[1..][i].value.GetOr("")
          && forall j :: 0 <= j < i ==> items[1..][j].name != name;
        assert forall j :: 0 <= j < i + 1 ==> items[j].name != name by {
          forall j | 0 <= j < i + 1 ensures items[j].name != name {
            if j > 0 { assert items[j] == items[1..][j - 1]; }
          }
        }
        r
      else
        assert forall i :: 0 <= i < |items| ==> items[i].name != name by {
          forall i | 0 <= i < |items| ensures items[i].name != name {
            if i > 0 { assert items[i] == items[1..][i - 1]; }
          }
        }
        r
  }

  /** Foundation's query items folded into a dictionary, later items
    * overwriting earlier ones and a missing value stored as "" (the
    * `dictionaryFromUrlQuery` helper of both iOS controllers). */
  function QueryDictionary(items: seq<QueryItem>): map<string, string>
    decreases |items|
  {
    if |items| == 0 then map[]
    else
      var last := items[|items| - 1];
      QueryDictionary(items[..|items| - 1])[last.name := last.value.GetOr("")]
  }

  /** The dictionary holds exactly the names that occur. */
  lemma {:induction false} QueryDictionaryDomain(items: seq<QueryItem>, name: string)
    ensures name in QueryDictionary(items) <==> exists i :: 0 <= i < |items| && items[i].name == name
    decreases |items|
  {
    if |items| > 0 {
      var n := |items| - 1;
      var init := items[..n];
      QueryDictionaryDomain(init, name);
      if exists i :: 0 <= i < |init| && init[i].name == name {
        var i :| 0 <= i < |init| && init[i].name == name;
        assert items[i].name == name;
      }
      if items[n].name != name && exists i :: 0 <= i < |items| && items[i].name == name {
        var i :| 0 <= i < |items| && items[i].name == name;
        assert init[i].name == name;
      }
    }
  }

  /** Each name maps to the value of its LAST occurrence ("" when that item
    * has no value). */
  lemma {:induction false} QueryDictionaryLastWins(items: seq<QueryItem>, name: string, i: nat)
    requires i < |items| && items[i].name == name
    requires forall j :: i < j < |items| ==> items[j].name != name
    ensures name in QueryDictionary(items)
    ensures QueryDictionary(items)[name] == items[i].value.GetOr("")
    decreases |items|
  {
    var n := |items| - 1;
    if i < n {
      var init := items[..n];
      assert init[i] == items[i];
      QueryDictionaryLastWins(init, name, i);
    }
  }

  /** Loop form of `dictionaryFromUrlQuery`: a dictionary filled item by item. */
  method DictionaryFromQuery(u: Uri) returns (work: map<string, string>)
    ensures work == QueryDictionary(QueryItems(u))
  {
    var items := QueryItems(u);
    work := map[];
    var k := 0;
    while k < |items|
      invariant 0 <= k <= |items|
      invariant work == QueryDictionary(items[..k])
    {
      assert items[..k + 1][..k] == items[..k];
      work := work[items[k].name := items[k].value.GetOr("")];
      k := k + 1;
    }
    assert items[..k] == items;
  }

  /** An item "name=value" whose name has no '=' splits into that name and
    * value, whatever '=' the value holds. */
  lemma ItemOfPair(n: string, v: string)
    requires '=' !in n
    ensures ItemOf(n + "=" + v) == QueryItem(n, Some(v))
  {
    var s := n + "=" + v;
    assert s[|n|] == '=';
    var r := SplitFirst(s, '=');
    var a := r.value.0;
    assert s == a + "=" + r.value.1;
    assert forall i :: 0 <= i < |n| ==> s[i] == n[i] && n[i] != '=';
    assert forall i :: 0 <= i < |a| ==> s[i] == a[i] && a[i] != '=';
    assert s[|a|] == '=';
    assert |a| == |n|;
    assert a == s[..|n|] == n;
    assert r.value.1 == s[|n| + 1..] == v;
  }

  /** A repeated parameter is read differently by the two platforms: Android
    * takes the first value, iOS the last. */
  lemma RepeatedParameterDiffers(name: string, first: string, second: string)
    requires '=' !in name && '&' !in name && '&' !in first && '&' !in second
    ensures var items := Items(name + "=" + first + "&" + name + "=" + second);
      FirstValue(items, name) == Some(first)
      && name in QueryDictionary(items) && QueryDictionary(items)[name] == second
  {
    var items := Items(name + "=" + first + "&" + name + "=" + second);
    ItemsOfTwoPairs(name, first, second);
    assert FirstValue(items, name) == Some(first);
    QueryDictionaryLastWins(items, name, 1);
  }

  /** "name=first&name=second" reads as the two items in order. */
  lemma ItemsOfTwoPairs(name: string, first: string, second: string)
    requires '=' !in name && '&' !in name && '&' !in first && '&' !in second
    ensures Items(name + "=" + first + "&" + name + "=" + second)
      == [QueryItem(name, Some(first)), QueryItem(name, Some(second))]
  {
    var p1 := name + "=" + first;
    var p2 := name + "=" + second;
    var q := name + "=" + first + "&" + name + "=" + second;
    assert q == p1 + "&" + p2;
    assert '&' !in p1 && '&' !in p2;
    var pieces := [p1, p2];
    assert Join(pieces, '&') == q;
    SplitJoin(pieces, '&');
    ItemOfPair(name, first);
    ItemOfPair(name, second);
  }

  // ---------------------------------------------------------------------
  // android.net.Uri: Uri.parse and Uri.Builder
  // ---------------------------------------------------------------------

  /** Authority as android.net.Uri reads it: after "//", up to the next '/',
    * '\', '?' or '#'. */
  function AndroidSplitAuthority(s: string): (Option<string>, string) {
    if |s| >= 2 && s[..2] == "//" then
      var a := Span(s[2..], {'/', '\\', '?', '#'});
      (Some(s[2..2 + a]), s[2 + a..])
    else (None, s)
  }

  /** A hierarchical part: authority, path, query and fragment. */
  function AndroidHierarchical(s: string): (u: Uri)
    ensures u.scheme.None?
  {
    var au := AndroidSplitAuthority(s);
    SplitTail(au.1).(authority := au.0)
  }

  /** Opaque in the sense of android.net.Uri: a scheme whose
    * scheme-specific part does not start with '/'. */
  predicate Opaque(u: Uri) {
    u.scheme.Some? && u.authority.None? && !(|u.path| > 0 && u.path[0] == '/')
  }

  /** What follows the first ':' of a link with the scheme before it: a
    * hierarchical part when it starts with '/'; otherwise an opaque
    * scheme-specific part, everything up to the first '#', a query
    * included, kept here in the path. */
  function AndroidAfterScheme(scheme: string, rest: string): (u: Uri)
    ensures u.scheme == Some(scheme)
    ensures Opaque(u) <==> !(|rest| > 0 && rest[0] == '/')
    ensures Opaque(u) ==> u.query.None?
  {
    if |rest| > 0 && rest[0] == '/' then
      var h := AndroidHierarchical(rest);
      assert h.authority.None? ==> |h.path| > 0 && h.path[0] == '/' by {
        if h.authority.None? {
          assert h.path == rest[..Span(rest, {'?', '#'})];
        }
      }
      h.(scheme := Some(scheme))
    else AndroidOpaque(scheme, rest)
  }

  /** An opaque link: the scheme-specific part runs to the first '#'. */
  function AndroidOpaque(scheme: string, rest: string): (u: Uri)
    ensures u.scheme == Some(scheme) && u.authority.None? && u.query.None?
    ensures u.path <= rest
  {
    var f := Span(rest, {'#'});
    Uri(Some(scheme), None, rest[..f], None, if f < |rest| then Some(rest[f + 1..]) else None)
  }

  /** `Uri.parse`: the scheme is everything before the first ':', wherever
    * it stands. The link is hierarchical when it has no ':' or a '/'
    * follows the first one; otherwise it is opaque. */
  function AndroidParse(s: string): (u: Uri)
    ensures u.scheme.None? <==> ':' !in s
    ensures u.scheme.Some? ==> ':' !in u.scheme.value
    ensures u.scheme.Some? ==>
      (Opaque(u) <==> !(|u.scheme.value| + 1 < |s| && s[|u.scheme.value| + 1] == '/'))
    ensures Opaque(u) ==> u.query.None?
  {
    match IndexOf(s, ':')
    case None => AndroidHierarchical(s)
    case Some(k) => AndroidAfterScheme(s[..k], s[k + 1..])
  }

  lemma AndroidAuthorityRestores(s: string)
    ensures Prefixed("//", AndroidSplitAuthority(s).0, "") + AndroidSplitAuthority(s).1 == s
  {
    if |s| >= 2 && s[..2] == "//" {
      var a := Span(s[2..], {'/', '\\', '?', '#'});
      assert s == s[..2] + s[2..2 + a] + s[2 + a..];
    }
  }

  lemma AndroidHierarchicalRestores(s: string)
    ensures Recompose(AndroidHierarchical(s)) == s
  {
    var au := AndroidSplitAuthority(s);
    AndroidAuthorityRestores(s);
    TailRestores(au.1);
    assert RecomposeTail(AndroidHierarchical(s)) == RecomposeTail(SplitTail(au.1));
  }

  /** A scheme put in front of a URI without one is written before it. */
  lemma RecomposeWithScheme(u: Uri, scheme: string)
    requires u.scheme.None?
    ensures Recompose(u.(scheme := Some(scheme))) == scheme + ":" + Recompose(u)
  {
    assert RecomposeTail(u.(scheme := Some(scheme))) == RecomposeTail(u);
  }

  lemma AndroidOpaqueRestores(scheme: string, rest: string)
    ensures Recompose(AndroidOpaque(scheme, rest)) == scheme + ":" + rest
  {
    var u := AndroidOpaque(scheme, rest);
    var f := Span(rest, {'#'});
    FragmentRestores(rest[f..]);
    assert Prefixed("#", u.fragment, "") == rest[f..];
    assert rest == u.path + rest[f..];
  }

  lemma AndroidAfterSchemeRestores(scheme: string, rest: string)
    ensures Recompose(AndroidAfterScheme(scheme, rest)) == scheme + ":" + rest
  {
    if |rest| > 0 && rest[0] == '/' {
      AndroidHierarchicalRestores(rest);
      RecomposeWithScheme(AndroidHierarchical(rest), scheme);
    } else {
      AndroidOpaqueRestores(scheme, rest);
    }
  }

  lemma SplitAround(s: string, k: nat)
    requires k < |s|
    ensures s == s[..k] + [s[k]] + s[k + 1..]
  {
  }

  /** Recomposing what `Uri.parse` split gives back the link: the split
    * loses and invents nothing. */
  lemma AndroidParseRecompose(s: string)
    ensures Recompose(AndroidParse(s)) == s
  {
    match IndexOf(s, ':')
    case None =>
      AndroidHierarchicalRestores(s);
    case Some(k) =>
      AndroidAfterSchemeRestores(s[..k], s[k + 1..]);
      SplitAround(s, k);
  }

  /** Without ':' and '\' in a link, android.net.Uri and the split of
    * Appendix B of RFC 3986 read the same components. */
  lemma ParsesAgree(s: string)
    requires ':' !in s && '\\' !in s
    ensures AndroidParse(s) == Parse(s)
  {
    assert SplitScheme(s) == (None, s) by {
      var k := Span(s, {':', '/', '?', '#'});
      assert !(0 < k < |s| && s[k] == ':');
    }
    if |s| >= 2 && s[..2] == "//" {
      SpanIgnoresAbsent(s[2..], {'/', '?', '#'}, {'/', '\\', '?', '#'});
    }
  }

  /** Stops the text does not contain do not change a span. */
  lemma {:induction false} SpanIgnoresAbsent(s: string, a: set<char>, b: set<char>)
    requires a <= b
    requires forall i :: 0 <= i < |s| ==> (s[i] in b ==> s[i] in a)
    ensures Span(s, a) == Span(s, b)
    decreases |s|
  {
    if |s| > 0 && s[0] !in b {
      SpanIgnoresAbsent(s[1..], a, b);
    }
  }

  /** `PathPart.makeAbsolute`: a non-empty path gets a leading '/' unless
    * it has one. */
  function MakeAbsolute(path: string): (p: string)
    ensures p == path || p == "/" + path
    ensures p == "" || p[0] == '/'
    ensures |path| > 0 && path[0] == '/' ==> p == path
    ensures p == "" <==> path == ""
  {
    if |path| == 0 || path[0] == '/' then path else "/" + path
  }

  /** `buildUpon()`, then `scheme(...)` and `authority(...)` with whichever of
    * them the page has, then `build()`. Setting an authority turns an
    * opaque link hierarchical and drops its scheme-specific part; `build()`
    * makes a non-empty path absolute once a scheme or an authority is set. */
  function RebuildOn(u: Uri, page: Uri): Uri {
    var scheme := if page.scheme.Some? then page.scheme else u.scheme;
    if Opaque(u) then
      if page.authority.Some? then Uri(scheme, page.authority, "", None, u.fragment)
      else u.(scheme := scheme)
    else
      var authority := if page.authority.Some? then page.authority else u.authority;
      Uri(scheme, authority, if scheme.Some? || authority.Some? then MakeAbsolute(u.path) else u.path,
          u.query, u.fragment)
  }

  // ---------------------------------------------------------------------
  // Browse-URL resolution (Android parseBrowseUrl)
  // ---------------------------------------------------------------------

  /** A link that opens as written: it names a non-empty authority, or,
    * where `telPassThrough`, it has the scheme "tel". */
  predicate OpensAsWritten(url: string, telPassThrough: bool) {
    var u := AndroidParse(url);
    (u.authority.Some? && |u.authority.value| > 0) || (telPassThrough && u.scheme == Some("tel"))
  }

  /** A link the page asks to open: kept when it opens as written; otherwise
    * rebuilt on the page's scheme and authority; None when the page URL is
    * unknown. On a page with an authority, a rebuilt link opens on the
    * page's host with an absolute path, and an opaque one (its first ':'
    * not followed by '/') keeps only its fragment. */
  function ResolveBrowseUrl(url: string, original: Option<Uri>, telPassThrough: bool): (r: Option<Uri>)
    ensures r.None? <==> !OpensAsWritten(url, telPassThrough) && original.None?
    ensures OpensAsWritten(url, telPassThrough) ==> r == Some(AndroidParse(url))
    ensures r.Some? ==> r.value.fragment == AndroidParse(url).fragment
    ensures var u := AndroidParse(url);
      !OpensAsWritten(url, telPassThrough) && original.Some? ==>
        r.value.scheme == (if original.value.scheme.Some? then original.value.scheme else u.scheme)
    ensures var u := AndroidParse(url);
      !OpensAsWritten(url, telPassThrough) && original.Some? && original.value.authority.Some? ==>
        r.value.authority == original.value.authority
        && (r.value.path == "" || r.value.path[0] == '/')
        && (Opaque(u) ==> r.value.path == "" && r.value.query.None?)
        && (!Opaque(u) ==> r.value.query == u.query && (r.value.path == u.path || r.value.path == "/" + u.path))
  {
    var u := AndroidParse(url);
    if OpensAsWritten(url, telPassThrough) then Some(u)
    else
      match original
      case None => None
      case Some(o) => Some(RebuildOn(u, o))
  }

  /** The scheme and authority of a URI, written out. */
  function Origin(u: Uri): string {
    Recompose(Uri(u.scheme, u.authority, "", None, None))
  }

  lemma RecomposeOrigin(u: Uri)
    ensures Recompose(u) == Origin(u) + RecomposeTail(u)
  {
  }

  lemma Associate(a: string, b: string, c: string)
    ensures a + (b + c) == a + b + c
  {
  }

  /** A '/' when a link starts with a relative path segment. */
  function LeadSlash(url: string): string {
    if |url| > 0 && url[0] != '/' && url[0] != '?' && url[0] != '#' then "/" else ""
  }

  /** A link with no ':' and no authority opens on the page's origin: the
    * page's scheme and authority, a '/' when the link starts with a
    * relative path segment, then the link itself. */
  lemma {:induction false} RelativeLinkTakesPageOrigin(url: string, original: Uri, telPassThrough: bool)
    requires ':' !in url && !(|url| >= 2 && url[0] == '/' && url[1] == '/')
    requires original.authority.Some?
    ensures Recompose(ResolveBrowseUrl(url, Some(original), telPassThrough).value)
      == Origin(original) + LeadSlash(url) + url
  {
    NoColonParse(url);
    var u := SplitTail(url);
    RebuildRelative(u, original);
    var r := RebuildOn(u, original);
    RecomposeOrigin(r);
    TailMadeAbsolute(url);
    assert RecomposeTail(r) == LeadSlash(url) + url;
    Associate(Origin(original), LeadSlash(url), url);
  }

  /** A link with no ':' and no leading "//" is a path, query and fragment. */
  lemma NoColonParse(url: string)
    requires ':' !in url && !(|url| >= 2 && url[0] == '/' && url[1] == '/')
    ensures AndroidParse(url) == SplitTail(url)
  {
    if |url| >= 2 {
      assert url[..2] == [url[0], url[1]];
    }
  }

  /** The path made absolute, then the query and fragment: the link with a
    * leading '/' where it needs one. */
  lemma TailMadeAbsolute(url: string)
    ensures var t := SplitTail(url);
      MakeAbsolute(t.path) + (Prefixed("?", t.query, "") + Prefixed("#", t.fragment, "")) == LeadSlash(url) + url
  {
    var t := SplitTail(url);
    TailRestores(url);
    var p := Span(url, {'?', '#'});
    var tail := Prefixed("?", t.query, "") + Prefixed("#", t.fragment, "");
    assert tail == "" || tail[0] == '?' || tail[0] == '#' by {
      QueryRemainder(url[p..]);
    }
    AbsoluteJoin(t.path, tail, url);
  }

  lemma RebuildRelative(u: Uri, page: Uri)
    requires u.scheme.None? && u.authority.None?
    ensures RebuildOn(u, page) == Uri(page.scheme, page.authority,
      if page.scheme.Some? || page.authority.Some? then MakeAbsolute(u.path) else u.path, u.query, u.fragment)
  {
  }

  /** The path made absolute, then the query and fragment, is the link with
    * a '/' in front when it starts with a relative path segment. */
  lemma AbsoluteJoin(path: string, tail: string, url: string)
    requires url == path + tail
    requires tail == "" || tail[0] == '?' || tail[0] == '#'
    requires forall i :: 0 <= i < |path| ==> path[i] != '?' && path[i] != '#'
    ensures MakeAbsolute(path) + tail == LeadSlash(url) + url
  {
    if |path| > 0 {
      assert url[0] == path[0];
    }
  }

  /** An opaque link (its first ':' not followed by '/', as `mailto:a@b` or
    * a query holding a time "12:30") opens the bare origin of the page: the
    * scheme-specific part, path and query included, is lost. */
  lemma OpaqueLinkOpensPageOrigin(url: string, original: Uri, telPassThrough: bool)
    requires Opaque(AndroidParse(url)) && !OpensAsWritten(url, telPassThrough)
    requires original.authority.Some?
    ensures var scheme := if original.scheme.Some? then original.scheme else AndroidParse(url).scheme;
      Recompose(ResolveBrowseUrl(url, Some(original), telPassThrough).value)
        == Prefixed("", scheme, ":") + "//" + original.authority.value + Prefixed("#", AndroidParse(url).fragment, "")
  {
  }

  // ---------------------------------------------------------------------
  // Reference resolution (section 5.2 of RFC 3986)
  // ---------------------------------------------------------------------

  /** Everything up to and including the last '/' of a path ("" when it has
    * none). */
  function Directory(path: string): (d: string)
    ensures d <= path
    ensures d == "" || d[|d| - 1] == '/'
    ensures forall i :: |d| <= i < |path| ==> path[i] != '/'
    decreases |path|
  {
    if |path| == 0 then ""
    else if path[|path| - 1] == '/' then path
    else Directory(path[..|path| - 1])
  }

  /** Merging a relative path with the base path (section 5.2.3). */
  function Merge(base: Uri, path: string): (m: string)
    ensures |m| >= |path| && m[|m| - |path|..] == path
    ensures '.' !in base.path && '.' !in path ==> '.' !in m
  {
    if base.authority.Some? && base.path == "" then "/" + path else Directory(base.path) + path
  }

  /** The output buffer without its last segment and the '/' before it. */
  function DropLastSegment(output: string): (r: string)
    ensures r <= output
  {
    var d := Directory(output);
    if d == "" then "" else d[..|d| - 1]
  }

  /** Rules A to D of section 5.2.4 of RFC 3986: what is left of the input
    * and the output buffer after the rule that applies to a leading "." or
    * ".." segment; None when the input starts with an ordinary segment. */
  function DotRule(input: string, output: string): (r: Option<(string, string)>)
    ensures r.Some? ==> |r.value.0| < |input| && |r.value.1| <= |output| && '.' in input
    ensures r.Some? ==> input[0] == '.' || (input[0] == '/' && |input| > 1 && input[1] == '.')
  {
    if |input| >= 3 && input[..3] == "../" then assert input[0] == '.'; Some((input[3..], output))
    else if |input| >= 2 && input[..2] == "./" then assert input[0] == '.'; Some((input[2..], output))
    else if |input| >= 3 && input[..3] == "/./" then assert input[1] == '.'; Some((input[2..], output))
    else if input == "/." then assert input[1] == '.'; Some(("/", output))
    else if |input| >= 4 && input[..4] == "/../" then assert input[1] == '.'; Some((input[3..], DropLastSegment(output)))
    else if input == "/.." then assert input[1] == '.'; Some(("/", DropLastSegment(output)))
    else if input == "." || input == ".." then assert input[0] == '.'; Some(("", output))
    else None
  }

  /** Rule E: the length of the first segment, with the '/' before it. */
  function SegmentEnd(input: string): (k: nat)
    requires input != ""
    ensures 0 < k <= |input|
  {
    if input[0] == '/' then 1 + Span(input[1..], {'/'}) else Span(input, {'/'})
  }

  /** Section 5.2.4 of RFC 3986, one rule per step: `output` is the buffer
    * built so far, `input` what is left of the path. A path without '.'
    * is moved over unchanged. */
  function RemoveDots(input: string, output: string): (r: string)
    ensures |r| <= |output| + |input|
    ensures '.' !in input ==> r == output + input
    decreases |input|
  {
    if input == "" then output
    else
      match DotRule(input, output)
      case Some(next) => RemoveDots(next.0, next.1)
      case None =>
        var k := SegmentEnd(input);
        assert input == input[..k] + input[k..];
        RemoveDots(input[k..], output + input[..k])
  }

  /** `remove_dot_segments`: "." and ".." segments resolved away. */
  function RemoveDotSegments(path: string): (r: string)
    ensures |r| <= |path|
    ensures '.' !in path ==> r == path
  {
    RemoveDots(path, "")
  }

  /** A span ends at the first stop. */
  lemma {:induction false} SpanOfConcat(a: string, b: string, stops: set<char>)
    requires forall i :: 0 <= i < |a| ==> a[i] !in stops
    requires |b| > 0 && b[0] in stops
    ensures Span(a + b, stops) == |a|
    decreases |a|
  {
    if |a| > 0 {
      assert (a + b)[1..] == a[1..] + b;
      SpanOfConcat(a[1..], b, stops);
    }
  }

  /** Rule E on a leading "/seg": the segment moves to the output. */
  lemma SegmentMoves(seg: string, tail: string, output: string)
    requires seg != "" && '/' !in seg && seg[0] != '.'
    requires |tail| > 0 && tail[0] == '/'
    ensures RemoveDots("/" + seg + tail, output) == RemoveDots(tail, output + ("/" + seg))
  {
    var p := "/" + seg + tail;
    assert p[0] == '/' && p[1] == seg[0];
    assert DotRule(p, output).None?;
    assert p[1..] == seg + tail;
    SpanOfConcat(seg, tail, {'/'});
    assert p[..1 + |seg|] == "/" + seg && p[1 + |seg|..] == tail;
  }

  /** The output "/seg" loses its only segment. */
  lemma DropOnlySegment(seg: string)
    requires '/' !in seg
    ensures DropLastSegment("/" + seg) == ""
  {
    var d := Directory("/" + seg);
    assert d != "" by {
      assert ("/" + seg)[0] == '/';
    }
    assert forall i :: 1 <= i < |"/" + seg| ==> ("/" + seg)[i] == seg[i - 1];
    assert ("/" + seg)[|d| - 1] == '/';
  }

  /** A ".." segment takes the segment before it away: "/seg/.." followed
    * by the rest of a path leaves the rest ("/" when there is none). */
  lemma DotDotCancelsSegment(seg: string, rest: string)
    requires seg != "" && '/' !in seg && '.' !in seg && '.' !in rest
    requires rest == "" || rest[0] == '/'
    ensures RemoveDotSegments("/" + seg + "/.." + rest) == if rest == "" then "/" else rest
  {
    var q := "/.." + rest;
    assert "/" + seg + "/.." + rest == "/" + seg + q;
    assert seg[0] != '.';
    assert q[0] == '/';
    SegmentMoves(seg, q, "");
    EmptyPrefix("/" + seg);
    DropOnlySegment(seg);
    DotDotRule(rest, "/" + seg);
    assert '.' !in "/";
  }

  lemma EmptyPrefix(s: string)
    ensures "" + s == s
  {
  }

  /** Rule C on a leading "/..". */
  lemma DotDotRule(rest: string, output: string)
    requires rest == "" || rest[0] == '/'
    ensures DotRule("/.." + rest, output) == Some((if rest == "" then "/" else rest, DropLastSegment(output)))
  {
    var q := "/.." + rest;
    if rest != "" {
      assert q[..4] == "/../" && q[3..] == rest;
    }
  }

  /** The target of a reference read against a base URI (section 5.2.2). A
    * reference with a scheme is taken as written, as Foundation keeps an
    * absolute URL string; every other target path has its dot segments
    * removed. */
  function ResolveReference(ref: Uri, base: Uri): (t: Uri)
    ensures ref.scheme.Some? ==> t == ref
    ensures ref.scheme.None? ==> t.scheme == base.scheme
    ensures ref.scheme.None? && ref.authority.None? ==> t.authority == base.authority
    ensures ref.authority.Some? ==> t.authority == ref.authority
    ensures ref.scheme.None? && (ref.authority.Some? || (|ref.path| > 0 && ref.path[0] == '/')) ==>
      t.path == RemoveDotSegments(ref.path)
    ensures ref.scheme.None? && ref.authority.None? && |ref.path| > 0 && ref.path[0] != '/' ==>
      t.path == RemoveDotSegments(Merge(base, ref.path))
    ensures ref.scheme.None? && ref.authority.None? && ref.path == "" ==>
      t.path == base.path && (ref.query.None? ==> t.query == base.query)
    ensures t.fragment == ref.fragment
    ensures ref.query.Some? ==> t.query == ref.query
    ensures ref.path != "" && '.' !in ref.path && '.' !in base.path ==>
      |t.path| >= |ref.path| && t.path[|t.path| - |ref.path|..] == ref.path
  {
    if ref.scheme.Some? then ref
    else if ref.authority.Some? then ref.(scheme := base.scheme, path := RemoveDotSegments(ref.path))
    else if ref.path == "" then
      Uri(base.scheme, base.authority, base.path, if ref.query.Some? then ref.query else base.query, ref.fragment)
    else if ref.path[0] == '/' then Uri(base.scheme, base.authority, RemoveDotSegments(ref.path), ref.query, ref.fragment)
    else Uri(base.scheme, base.authority, RemoveDotSegments(Merge(base, ref.path)), ref.query, ref.fragment)
  }

  /** For a link that starts with a single '/' (and has no ':' or '\') the
    * Android resolution and the standard one agree up to the removal of
    * dot segments: both put the page's scheme and authority in front of
    * it. Without '.' they agree outright. */
  lemma PathAbsoluteLinksAgree(url: string, original: Uri, telPassThrough: bool)
    requires ':' !in url && '\\' !in url
    requires |url| > 0 && url[0] == '/' && !(|url| >= 2 && url[1] == '/')
    ensures var r := ResolveBrowseUrl(url, Some(original), telPassThrough).value;
      ResolveReference(Parse(url), original) == r.(path := RemoveDotSegments(r.path))
    ensures '.' !in url ==>
      ResolveReference(Parse(url), original) == ResolveBrowseUrl(url, Some(original), telPassThrough).value
  {
    ParsesAgree(url);
    NoColonParse(url);
    var u := SplitTail(url);
    assert |u.path| > 0 && u.path[0] == '/' && u.path <= url;
    RebuildRelative(u, original);
    assert '.' !in url ==> '.' !in u.path;
  }

  /** They part for a link relative to the page's directory: the standard
    * resolution keeps the directory of the page path, the Android one
    * drops it (`spots/1` on a page at /maps/x: /maps/spots/1 on iOS,
    * /spots/1 on Android). */
  lemma RelativePathLinksDiffer(url: string, original: Uri, telPassThrough: bool)
    requires ':' !in url && '\\' !in url && '.' !in url
    requires |url| > 0 && url[0] != '/' && url[0] != '?' && url[0] != '#'
    requires original.authority.Some? && '.' !in original.path && |Directory(original.path)| > 1
    ensures ResolveReference(Parse(url), original).path == Directory(original.path) + Parse(url).path
    ensures ResolveBrowseUrl(url, Some(original), telPassThrough).value.path == "/" + Parse(url).path
    ensures ResolveReference(Parse(url), original) != ResolveBrowseUrl(url, Some(original), telPassThrough).value
  {
    ParsesAgree(url);
    NoColonParse(url);
    var u := SplitTail(url);
    assert |u.path| > 0 && u.path[0] == url[0] && u.path <= url;
    RebuildRelative(u, original);
    MergedPathKept(u.path, original);
  }

  /** Merging a dot-free relative path under a dot-free directory keeps
    * both. */
  lemma MergedPathKept(path: string, base: Uri)
    requires |path| > 0 && path[0] != '/' && '.' !in path
    requires '.' !in base.path && Directory(base.path) != ""
    ensures RemoveDotSegments(Merge(base, path)) == Directory(base.path) + path
  {
    var d := Directory(base.path);
    assert '.' !in d + path by {
      assert forall i :: 0 <= i < |d| ==> d[i] == base.path[i];
    }
  }
}
