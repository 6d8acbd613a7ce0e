// Shared value types and text helpers used by every bridge module: an Option,
// the Kotlin/Swift string splitting the bridges rely on, ASCII case folding,
// substring search and decimal rendering of integers.
module Common {

  datatype Option<T> = None | Some(value: T) {
    function GetOr(default: T): T {
      if Some? then value else default
    }
  }

  // ---------------------------------------------------------------------
  // Splitting on one separator character
  // ---------------------------------------------------------------------

  /** All pieces between occurrences of `c`, empty pieces included
    * (Kotlin's `split(c)` without a limit). */
  function Split(s: string, c: char): (parts: seq<string>)
    ensures |parts| >= 1
    ensures forall i :: 0 <= i < |parts| ==> c !in parts[i]
    decreases |s|
  {
    if |s| == 0 then [""]
    else
      var rest := Split(s[1..], c);
      if s[0] == c then [""] + rest
      else [[s[0]] + rest[0]] + rest[1..]
  }

  /** Pieces glued back together with `c` between neighbours. */
  function Join(parts: seq<string>, c: char): string
    requires |parts| >= 1
    decreases |parts|
  {
    if |parts| == 1 then parts[0] else parts[0] + [c] + Join(parts[1..], c)
  }

  /** Splitting and joining again gives back the original text. */
  lemma {:induction false} JoinSplit(s: string, c: char)
    ensures Join(Split(s, c), c) == s
    decreases |s|
  {
    if |s| > 0 {
      var rest := Split(s[1..], c);
      JoinSplit(s[1..], c);
      if s[0] == c {
        assert Split(s, c) == [""] + rest;
        assert Join(Split(s, c), c) == "" + [c] + Join(rest, c);
        assert s == [s[0]] + s[1..];
      } else {
        JoinHead(rest, c, s[0]);
        assert s == [s[0]] + s[1..];
      }
    }
  }

  lemma JoinHead(parts: seq<string>, c: char, x: char)
    requires |parts| >= 1
    ensures Join([[x] + parts[0]] + parts[1..], c) == [x] + Join(parts, c)
  {
    var p := [[x] + parts[0]] + parts[1..];
    if |parts| > 1 {
      assert p[1..] == parts[1..];
    }
  }

  /** Joining pieces that do not contain `c` and splitting again gives the
    * pieces back: the separator count fixes the number of pieces. */
  lemma {:induction false} SplitJoin(parts: seq<string>, c: char)
    requires |parts| >= 1
    requires forall i :: 0 <= i < |parts| ==> c !in parts[i]
    ensures Split(Join(parts, c), c) == parts
    decreases |parts|, |parts[0]|
  {
    if |parts[0]| > 0 {
      var x := parts[0][0];
      var tail := [parts[0][1..]] + parts[1..];
      assert c !in tail[0];
      forall i | 0 <= i < |tail| ensures c !in tail[i] {
        if i > 0 { assert tail[i] == parts[i]; }
      }
      SplitJoin(tail, c);
      JoinHead(tail, c, x);
      assert [[x] + tail[0]] + tail[1..] == parts by {
        assert [x] + tail[0] == parts[0];
        assert tail[1..] == parts[1..];
      }
      var j := Join(parts, c);
      assert j == [x] + Join(tail, c);
      assert j[1..] == Join(tail, c);
      assert x != c;
    } else if |parts| > 1 {
      var j := Join(parts, c);
      assert j == [c] + Join(parts[1..], c);
      assert j[1..] == Join(parts[1..], c);
      forall i | 0 <= i < |parts[1..]| ensures c !in parts[1..][i] {
        assert parts[1..][i] == parts[i + 1];
      }
      SplitJoin(parts[1..], c);
      assert parts == [""] + parts[1..];
    }
  }

  /** Position of the first `c` in `s`, if any. */
  function IndexOf(s: string, c: char): (r: Option<nat>)
    ensures r.Some? ==> r.value < |s| && s[r.value] == c && c !in s[..r.value]
    ensures r.None? <==> c !in s
  {
    if |s| == 0 then None
    else if s[0] == c then Some(0)
    else
      match IndexOf(s[1..], c)
      case None => None
      case Some(k) => assert s[1..][..k] == s[1..k + 1]; Some(k + 1)
  }

  /** The text before and after the first `c` (Kotlin's `split(c, limit = 2)`
    * and Foundation's name/value split of a query item); None when `c` does
    * not occur. */
  function SplitFirst(s: string, c: char): (r: Option<(string, string)>)
    ensures r.None? <==> c !in s
    ensures r.Some? ==> s == r.value.0 + [c] + r.value.1 && c !in r.value.0
  {
    match IndexOf(s, c)
    case None => None
    case Some(k) =>
      assert s == s[..k] + [c] + s[k + 1..];
      Some((s[..k], s[k + 1..]))
  }

  // ---------------------------------------------------------------------
  // ASCII case folding and substring search
  // ---------------------------------------------------------------------

  function LowerChar(ch: char): (r: char)
    ensures 'A' <= ch <= 'Z' ==> r != ch && 'a' <= r <= 'z'
    ensures !('A' <= ch <= 'Z') ==> r == ch
  {
    if 'A' <= ch <= 'Z' then (ch as int + 32) as char else ch
  }

  /** No character in A-Z. */
  predicate NoUpper(s: string) {
    forall i :: 0 <= i < |s| ==> !('A' <= s[i] <= 'Z')
  }

  /** ASCII lower-casing: the result has no upper-case letter, every other
    * character stays where it is, and an upper-case letter becomes the
    * lower-case letter at the same place in the alphabet. */
  function Lower(s: string): (r: string)
    ensures |r| == |s| && NoUpper(r)
    ensures forall i :: 0 <= i < |s| && !('A' <= s[i] <= 'Z') ==> r[i] == s[i]
    ensures forall i :: 0 <= i < |s| && 'A' <= s[i] <= 'Z' ==> r[i] as int - 'a' as int == s[i] as int - 'A' as int
  {
    seq(|s|, i requires 0 <= i < |s| => LowerChar(s[i]))
  }

  /** A text with no upper-case letter is its own lower-case form. */
  lemma LowerOfNoUpper(s: string)
    requires NoUpper(s)
    ensures Lower(s) == s
  {
  }

  /** Two texts are equal once both are lower-cased (the comparison used for
    * beacon UUIDs). */
  predicate EqualsIgnoreCase(a: string, b: string) {
    Lower(a) == Lower(b)
  }

  lemma LowerIdempotent(s: string)
    ensures Lower(Lower(s)) == Lower(s)
  {
    LowerOfNoUpper(Lower(s));
  }

  /** Does `p` occur in `s` as a contiguous piece? */
  predicate HasInfix(s: string, p: string)
    decreases |s|
  {
    p <= s || (|s| > 0 && HasInfix(s[1..], p))
  }

  /** `p` occurs in `s` starting at position `i`. */
  predicate MatchAt(s: string, p: string, i: int) {
    0 <= i && i + |p| <= |s| && s[i..i + |p|] == p
  }

  /** HasInfix is a search for a start position where `p` matches. */
  lemma {:induction false} HasInfixAt(s: string, p: string)
    ensures HasInfix(s, p) <==> exists i :: MatchAt(s, p, i)
    decreases |s|
  {
    if |s| > 0 {
      HasInfixAt(s[1..], p);
      if HasInfix(s[1..], p) {
        var i :| MatchAt(s[1..], p, i);
        assert s[i + 1..i + 1 + |p|] == s[1..][i..i + |p|];
        assert MatchAt(s, p, i + 1);
      }
      if p <= s {
        assert MatchAt(s, p, 0);
      }
      if exists i :: MatchAt(s, p, i) {
        var i :| MatchAt(s, p, i);
        if i == 0 {
          assert p <= s;
        } else {
          assert s[1..][i - 1..i - 1 + |p|] == s[i..i + |p|];
          assert MatchAt(s[1..], p, i - 1);
        }
      }
    } else {
      if exists i :: MatchAt(s, p, i) {
        var i :| MatchAt(s, p, i);
        assert p == [];
      }
      if HasInfix(s, p) {
        assert MatchAt(s, p, 0);
      }
    }
  }

  /** Case-insensitive substring search, the only feature of the keyboard
    * regular expressions the bridges use. */
  predicate ContainsIgnoreCase(s: string, p: string) {
    HasInfix(Lower(s), Lower(p))
  }

  /** What is left of a minimum display time `minimum` once `elapsed` has
    * passed: never negative, and nothing once the minimum has passed. */
  function RemainingDelay(minimum: int, elapsed: int): (d: int)
    ensures d >= 0 && elapsed + d >= minimum
    ensures d == 0 || d == minimum - elapsed
    ensures 0 <= elapsed && 0 <= minimum ==> d <= minimum
  {
    if minimum < elapsed then 0 else minimum - elapsed
  }

  /** A page query naming a spot, a stamp rally or an `ews` page, in any
    * letter case: the pages whose input fields the keyboard must not
    * hide. */
  predicate InputPageQuery(q: string) {
    ContainsIgnoreCase(q, "spot=") || ContainsIgnoreCase(q, "stamprally=") || ContainsIgnoreCase(q, "ews=")
  }

  /** The query is an input page's iff one of the three names starts at
    * some position of its lower-cased text. */
  lemma InputPageQueryAt(q: string)
    ensures InputPageQuery(q) <==> exists i :: (MatchAt(Lower(q), "spot=", i)
      || MatchAt(Lower(q), "stamprally=", i) || MatchAt(Lower(q), "ews=", i))
  {
    assert Lower("spot=") == "spot=";
    assert Lower("stamprally=") == "stamprally=";
    assert Lower("ews=") == "ews=";
    HasInfixAt(Lower(q), "spot=");
    HasInfixAt(Lower(q), "stamprally=");
    HasInfixAt(Lower(q), "ews=");
  }

  // ---------------------------------------------------------------------
  // Decimal rendering of integers (Kotlin string templates, Swift "\(n)")
  // ---------------------------------------------------------------------

  predicate IsDigit(ch: char) { '0' <= ch <= '9' }

  function DigitChar(d: nat): (ch: char)
    requires d < 10
    ensures IsDigit(ch) && ch as int - '0' as int == d
  {
    ('0' as int + d) as char
  }

  function NatDecimal(n: nat): (s: string)
    ensures |s| >= 1
    ensures forall i :: 0 <= i < |s| ==> IsDigit(s[i])
    ensures |s| > 1 ==> s[0] != '0'
  {
    if n < 10 then [DigitChar(n)] else NatDecimal(n / 10) + [DigitChar(n % 10)]
  }

  /** Decimal text of `n`, with a leading '-' when negative. */
  function Decimal(n: int): (s: string)
    ensures |s| >= 1
    ensures n >= 0 ==> IsDigit(s[0])
    ensures n < 0 ==> s[0] == '-'
  {
    if n < 0 then "-" + NatDecimal(-n) else NatDecimal(n)
  }

  predicate AllDigits(s: string) {
    forall i :: 0 <= i < |s| ==> IsDigit(s[i])
  }

  /** Value of a run of decimal digits. */
  function DigitsValue(s: string): (v: nat)
    requires AllDigits(s)
  {
    if |s| == 0 then 0
    else
      var last := s[|s| - 1];
      assert IsDigit(last);
      DigitsValue(s[..|s| - 1]) * 10 + (last as int - '0' as int)
  }

  /** Reads back the output of Decimal. */
  function ParseDecimal(s: string): Option<int> {
    if |s| >= 2 && s[0] == '-' && AllDigits(s[1..]) then
      var v: int := DigitsValue(s[1..]);
      Some(-v)
    else if |s| >= 1 && AllDigits(s) then
      Some(DigitsValue(s))
    else None
  }

  lemma {:induction false} NatDecimalValue(n: nat)
    ensures DigitsValue(NatDecimal(n)) == n
  {
    if n >= 10 {
      var s := NatDecimal(n);
      NatDecimalValue(n / 10);
      assert s[..|s| - 1] == NatDecimal(n / 10);
    }
  }

  /** Decimal rendering is injective: it reads back to the same integer. */
  lemma DecimalRoundTrip(n: int)
    ensures ParseDecimal(Decimal(n)) == Some(n)
  {
    var s := Decimal(n);
    if n < 0 {
      assert s[1..] == NatDecimal(-n);
      assert AllDigits(s[1..]);
      NatDecimalValue(-n);
    } else {
      assert AllDigits(s);
      assert s[0] != '-';
      NatDecimalValue(n);
    }
  }

  // ---------------------------------------------------------------------
  // Open sessions (start and stop events in an effect log)
  // ---------------------------------------------------------------------

  /** The start events of a log minus its stop events: the number of
    * sessions the log leaves open. */
  function Balance<T(==)>(s: seq<T>, start: T, stop: T): int {
    if |s| == 0 then 0
    else Balance(s[..|s| - 1], start, stop) + (if s[|s| - 1] == start then 1 else if s[|s| - 1] == stop then -1 else 0)
  }

  /** One start opens a session, one stop closes one, anything else
    * leaves the count alone. */
  lemma BalanceAppend<T>(s: seq<T>, e: T, start: T, stop: T)
    ensures Balance(s + [e], start, stop)
      == Balance(s, start, stop) + (if e == start then 1 else if e == stop then -1 else 0)
  {
    assert (s + [e])[..|s|] == s;
  }
}
