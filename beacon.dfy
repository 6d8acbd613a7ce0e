// The beacon sample record (PmBeaconDto) and the decoder that turns a BLE
// scan record into one: the proximity UUID of bytes 9..24 rendered in the
// 8-4-4-4-12 form of section 3 of RFC 4122, and the big-endian 16-bit major
// and minor numbers of bytes 25..28.
module Beacon {
  import opened Common
  import opened Protocol

  /** A Kotlin/Java signed byte. */
  newtype int8 = b: int | -128 <= b < 128

  /** A beacon sample: PmBeaconDto. */
  datatype BeaconDto = BeaconDto(uuid: string, major: int, minor: int, rssi: int, timestamp: int)

  /** The constructor: uuid, major, minor and rssi are stored as given and
    * the timestamp is the construction time. */
  function NewBeaconDto(uuid: string, major: int, minor: int, rssi: int, now: int): (b: BeaconDto)
    ensures b.uuid == uuid && b.major == major && b.minor == minor && b.rssi == rssi
    ensures b.timestamp == now
  {
    BeaconDto(uuid, major, minor, rssi, now)
  }

  /** `toString`: major, minor and rssi only (the uuid line is commented out). */
  function ToString(b: BeaconDto): string {
    "Beacon{" + "major=" + Decimal(b.major) + ", minor=" + Decimal(b.minor)
      + ", rssi=" + Decimal(b.rssi) + "}"
  }

  /** The rendering never depends on the uuid or the timestamp, and it is
    * framed by "Beacon{major=" and "}". */
  lemma ToStringOmitsUuid(b: BeaconDto, otherUuid: string, otherTime: int)
    ensures ToString(b) == ToString(b.(uuid := otherUuid, timestamp := otherTime))
    ensures "Beacon{major=" <= ToString(b)
    ensures ToString(b)[|ToString(b)| - 1] == '}'
  {
    var s := ToString(b);
    assert s == "Beacon{major=" + (Decimal(b.major) + ", minor=" + Decimal(b.minor)
      + ", rssi=" + Decimal(b.rssi) + "}");
  }

  /** The fields of the JSON record the page receives for one sample. */
  function BeaconRecord(b: BeaconDto): Args {
    map["uuid" := Text(b.uuid), "major" := Integer(b.major), "minor" := Integer(b.minor),
        "rssi" := Integer(b.rssi), "timestamp" := Integer(b.timestamp)]
  }

  /** How the page reads a record back into a sample. */
  function RecordToDto(r: Args): Option<BeaconDto> {
    if "uuid" in r && "major" in r && "minor" in r && "rssi" in r && "timestamp" in r
       && r["uuid"].Text? && r["major"].Integer? && r["minor"].Integer?
       && r["rssi"].Integer? && r["timestamp"].Integer?
    then Some(BeaconDto(r["uuid"].text, r["major"].integer, r["minor"].integer, r["rssi"].integer,
                   r["timestamp"].integer))
    else None
  }

  /** The record carries all five fields of the sample: reading it back
    * gives the sample again. */
  lemma BeaconRecordRoundTrip(b: BeaconDto)
    ensures RecordToDto(BeaconRecord(b)) == Some(b)
    ensures BeaconRecord(b).Keys == {"uuid", "major", "minor", "rssi", "timestamp"}
  {
  }

  /** The records of a batch of samples, in arrival order. */
  function BeaconRecords(buffer: seq<BeaconDto>): (rs: seq<Args>)
    ensures |rs| == |buffer|
  {
    seq(|buffer|, i requires 0 <= i < |buffer| => BeaconRecord(buffer[i]))
  }

  /** A batch reads back to the buffered samples, in order. */
  lemma BeaconRecordsRoundTrip(buffer: seq<BeaconDto>)
    ensures forall i :: 0 <= i < |buffer| ==> RecordToDto(BeaconRecords(buffer)[i]) == Some(buffer[i])
  {
    forall i | 0 <= i < |buffer| ensures RecordToDto(BeaconRecords(buffer)[i]) == Some(buffer[i]) {
      BeaconRecordRoundTrip(buffer[i]);
    }
  }

  /** The loop of `flushBeaconBuffer` that turns each sample into a record. */
  method CollectBeaconRecords(buffer: seq<BeaconDto>) returns (rs: seq<Args>)
    ensures rs == BeaconRecords(buffer)
  {
    rs := [];
    var k := 0;
    while k < |buffer|
      invariant 0 <= k <= |buffer|
      invariant rs == BeaconRecords(buffer[..k])
    {
      rs := rs + [BeaconRecord(buffer[k])];
      k := k + 1;
      assert buffer[..k][..k - 1] == buffer[..k - 1];
    }
    assert buffer[..k] == buffer;
  }

  // ---------------------------------------------------------------------
  // Bytes and hex
  // ---------------------------------------------------------------------

  /** `b.toInt() and 0xFF`: masking the sign-extended value to its low
    * eight bits is its residue modulo 256. */
  function LowByte(b: int8): (v: int)
    ensures 0 <= v < 256
    ensures v == if b < 0 then b as int + 256 else b as int
  {
    (b as int) % 256
  }

  /** `((hi.toInt() and 0xFF) shl 8) or (lo.toInt() and 0xFF)`: the two
    * masked bytes occupy disjoint bits, so the `or` is a sum. */
  function BigEndian16(hi: int8, lo: int8): (v: int)
    ensures 0 <= v < 65536
  {
    LowByte(hi) * 256 + LowByte(lo)
  }

  function HexDigit(d: int): (ch: char)
    requires 0 <= d < 16
  {
    if d < 10 then ('0' as int + d) as char else ('a' as int + d - 10) as char
  }

  predicate IsLowerHex(ch: char) {
    '0' <= ch <= '9' || 'a' <= ch <= 'f'
  }

  /** The value of a lower-case hex digit. */
  function HexValue(ch: char): (d: int)
    requires IsLowerHex(ch)
    ensures 0 <= d < 16 && HexDigit(d) == ch
  {
    if ch <= '9' then ch as int - '0' as int else ch as int - 'a' as int + 10
  }

  /** `String.format("%02x", b)`: two lower-case hex digits of the unsigned
    * byte value. */
  function Hex2(b: int8): (s: string)
    ensures |s| == 2 && IsLowerHex(s[0]) && IsLowerHex(s[1])
  {
    var v := LowByte(b);
    [HexDigit(v / 16), HexDigit(v % 16)]
  }

  /** The two digits read back to the unsigned byte. */
  lemma Hex2Value(b: int8)
    ensures HexValue(Hex2(b)[0]) * 16 + HexValue(Hex2(b)[1]) == LowByte(b)
  {
    var v := LowByte(b);
    HexDigitValue(v / 16);
    HexDigitValue(v % 16);
  }

  lemma HexDigitValue(d: int)
    requires 0 <= d < 16
    ensures IsLowerHex(HexDigit(d)) && HexValue(HexDigit(d)) == d
  {
  }

  /** Hex of a run of bytes. */
  function HexRun(bs: seq<int8>): (s: string)
    ensures |s| == 2 * |bs|
  {
    if |bs| == 0 then "" else HexRun(bs[..|bs| - 1]) + Hex2(bs[|bs| - 1])
  }

  /** Reads hex back into unsigned byte values. */
  function Unhex(s: string): seq<int>
    requires |s| % 2 == 0
    requires forall i :: 0 <= i < |s| ==> IsLowerHex(s[i])
  {
    if |s| == 0 then []
    else Unhex(s[..|s| - 2]) + [HexValue(s[|s| - 2]) * 16 + HexValue(s[|s| - 1])]
  }

  function LowBytes(bs: seq<int8>): (vs: seq<int>)
    ensures |vs| == |bs|
  {
    seq(|bs|, i requires 0 <= i < |bs| => LowByte(bs[i]))
  }

  /** Hex output is lower-case hex and reads back to the unsigned bytes. */
  lemma {:induction false} HexRunRoundTrip(bs: seq<int8>)
    ensures forall i :: 0 <= i < |HexRun(bs)| ==> IsLowerHex(HexRun(bs)[i])
    ensures Unhex(HexRun(bs)) == LowBytes(bs)
  {
    if |bs| > 0 {
      var init := bs[..|bs| - 1];
      HexRunRoundTrip(init);
      var s := HexRun(bs);
      var h := Hex2(bs[|bs| - 1]);
      assert s == HexRun(init) + h;
      assert s[..|s| - 2] == HexRun(init);
      assert s[|s| - 2] == h[0] && s[|s| - 1] == h[1];
      Hex2Value(bs[|bs| - 1]);
      assert LowBytes(bs) == LowBytes(init) + [LowByte(bs[|bs| - 1])];
    }
  }

  lemma HexRunAppend(a: seq<int8>, b: int8)
    ensures HexRun(a + [b]) == HexRun(a) + Hex2(b)
  {
    assert (a + [b])[..|a + [b]| - 1] == a;
  }

  // ---------------------------------------------------------------------
  // The proximity UUID
  // ---------------------------------------------------------------------

  /** The 8-4-4-4-12 text of bytes 9..24: groups of 4, 2, 2, 2 and 6 bytes. */
  function UuidText(bytes: seq<int8>): string
    requires |bytes| > 24
  {
    HexRun(bytes[9..13]) + "-" + HexRun(bytes[13..15]) + "-" + HexRun(bytes[15..17]) + "-"
      + HexRun(bytes[17..19]) + "-" + HexRun(bytes[19..25])
  }

  /** The loop appends a '-' after these byte positions. */
  predicate DashAfter(i: int) {
    i == 12 || i == 14 || i == 16 || i == 18
  }

  /** The text the StringBuilder loop holds once it has handled bytes 9..i-1. */
  function Emitted(bytes: seq<int8>, i: int): string
    requires 9 <= i <= 25 && |bytes| > 24
    decreases i
  {
    if i == 9 then ""
    else Emitted(bytes, i - 1) + Hex2(bytes[i - 1]) + (if DashAfter(i - 1) then "-" else "")
  }

  /** One more byte handled: its hex, then a dash where one belongs. */
  lemma EmittedStep(bytes: seq<int8>, i: int)
    requires 9 <= i < 25 && |bytes| > 24
    ensures Emitted(bytes, i + 1) == Emitted(bytes, i) + Hex2(bytes[i]) + (if DashAfter(i) then "-" else "")
  {
  }

  /** Between dashes the loop emits plain hex. */
  lemma {:induction false} EmittedRun(bytes: seq<int8>, lo: int, hi: int)
    requires 9 <= lo <= hi <= 25 && |bytes| > 24
    requires forall k :: lo <= k < hi ==> !DashAfter(k)
    ensures Emitted(bytes, hi) == Emitted(bytes, lo) + HexRun(bytes[lo..hi])
    decreases hi
  {
    if hi > lo {
      EmittedRun(bytes, lo, hi - 1);
      assert !DashAfter(hi - 1);
      EmittedStep(bytes, hi - 1);
      HexRunSnoc(bytes, lo, hi);
      Regroup(Emitted(bytes, lo), HexRun(bytes[lo..hi - 1]), Hex2(bytes[hi - 1]), "");
    }
  }

  /** One group followed by its dash. */
  lemma EmittedGroup(bytes: seq<int8>, lo: int, hi: int)
    requires 9 <= lo < hi <= 25 && |bytes| > 24
    requires forall k :: lo <= k < hi - 1 ==> !DashAfter(k)
    requires DashAfter(hi - 1)
    ensures Emitted(bytes, hi) == Emitted(bytes, lo) + HexRun(bytes[lo..hi]) + "-"
  {
    EmittedRun(bytes, lo, hi - 1);
    EmittedStep(bytes, hi - 1);
    HexRunSnoc(bytes, lo, hi);
    Regroup(Emitted(bytes, lo), HexRun(bytes[lo..hi - 1]), Hex2(bytes[hi - 1]), "-");
  }

  lemma Regroup(a: string, b: string, c: string, d: string)
    ensures a + b + c + d == a + (b + c) + d
  {
  }

  /** A run of bytes read as hex, one byte longer. */
  lemma HexRunSnoc(bytes: seq<int8>, lo: int, hi: int)
    requires 0 <= lo < hi <= |bytes|
    ensures HexRun(bytes[lo..hi]) == HexRun(bytes[lo..hi - 1]) + Hex2(bytes[hi - 1])
  {
    HexRunAppend(bytes[lo..hi - 1], bytes[hi - 1]);
    assert bytes[lo..hi - 1] + [bytes[hi - 1]] == bytes[lo..hi];
  }

  /** The loop's output is the RFC 4122 grouping. */
  lemma EmittedIsUuidText(bytes: seq<int8>, n: int)
    requires |bytes| > 24 && n == 25
    ensures Emitted(bytes, n) == UuidText(bytes)
  {
    var h1, h2, h3, h4, h5 := HexRun(bytes[9..13]), HexRun(bytes[13..15]), HexRun(bytes[15..17]),
      HexRun(bytes[17..19]), HexRun(bytes[19..25]);
    assert Emitted(bytes, 9) == "";
    EmittedGroup(bytes, 9, 13);
    assert Emitted(bytes, 13) == h1 + "-";
    EmittedGroup(bytes, 13, 15);
    assert Emitted(bytes, 15) == h1 + "-" + h2 + "-";
    EmittedGroup(bytes, 15, 17);
    assert Emitted(bytes, 17) == h1 + "-" + h2 + "-" + h3 + "-";
    EmittedGroup(bytes, 17, 19);
    assert Emitted(bytes, 19) == h1 + "-" + h2 + "-" + h3 + "-" + h4 + "-";
    EmittedRun(bytes, 19, 25);
  }

  /** The UUID text has 36 characters, dashes at positions 8, 13, 18 and 23,
    * and lower-case hex everywhere else; the hex reads back to bytes 9..24. */
  lemma UuidTextShape(bytes: seq<int8>)
    requires |bytes| > 24
    ensures var u := UuidText(bytes);
      |u| == 36 && u[8] == '-' && u[13] == '-' && u[18] == '-' && u[23] == '-'
      && (forall i :: 0 <= i < 36 && i != 8 && i != 13 && i != 18 && i != 23 ==> IsLowerHex(u[i]))
      && Unhex(u[..8] + u[9..13] + u[14..18] + u[19..23] + u[24..]) == LowBytes(bytes[9..25])
  {
    var u := UuidText(bytes);
    UuidTextGroups(bytes);
    UuidTextDigits(bytes);
    var all := bytes[9..25];
    HexRunRoundTrip(all);
    forall i | 0 <= i < 36 && i != 8 && i != 13 && i != 18 && i != 23
      ensures IsLowerHex(u[i])
    {
      var j := if i < 8 then i else if i < 13 then i - 1 else if i < 18 then i - 2 else if i < 23 then i - 3 else i - 4;
      assert u[i] == HexRun(all)[j];
    }
  }

  /** Where each group and each dash sits in the UUID text. */
  lemma UuidTextGroups(bytes: seq<int8>)
    requires |bytes| > 24
    ensures var u := UuidText(bytes);
      |u| == 36 && u[8] == '-' && u[13] == '-' && u[18] == '-' && u[23] == '-'
      && u[..8] == HexRun(bytes[9..13]) && u[9..13] == HexRun(bytes[13..15])
      && u[14..18] == HexRun(bytes[15..17]) && u[19..23] == HexRun(bytes[17..19])
      && u[24..] == HexRun(bytes[19..25])
  {
    var h1, h2, h3, h4, h5 := HexRun(bytes[9..13]), HexRun(bytes[13..15]), HexRun(bytes[15..17]),
      HexRun(bytes[17..19]), HexRun(bytes[19..25]);
    var u := UuidText(bytes);
    assert u == h1 + "-" + h2 + "-" + h3 + "-" + h4 + "-" + h5;
  }

  /** With the dashes taken out, the UUID text is the hex of bytes 9..24. */
  lemma UuidTextDigits(bytes: seq<int8>)
    requires |bytes| > 24
    ensures var u := UuidText(bytes);
      |u| == 36 && u[..8] + u[9..13] + u[14..18] + u[19..23] + u[24..] == HexRun(bytes[9..25])
  {
    UuidTextGroups(bytes);
    var g1, g2, g3, g4, g5 := bytes[9..13], bytes[13..15], bytes[15..17], bytes[17..19], bytes[19..25];
    assert bytes[9..25] == g1 + g2 + g3 + g4 + g5;
    HexRunConcat(g1, g2);
    HexRunConcat(g1 + g2, g3);
    HexRunConcat(g1 + g2 + g3, g4);
    HexRunConcat(g1 + g2 + g3 + g4, g5);
  }

  lemma {:induction false} HexRunConcat(a: seq<int8>, b: seq<int8>)
    ensures HexRun(a + b) == HexRun(a) + HexRun(b)
    decreases |b|
  {
    if |b| > 0 {
      var init := b[..|b| - 1];
      HexRunConcat(a, init);
      assert (a + b)[..|a + b| - 1] == a + init;
    } else {
      assert a + b == a;
    }
  }

  /** The StringBuilder loop of `parseBeacon`. */
  method BuildUuid(bytes: seq<int8>) returns (sb: string)
    requires |bytes| > 24
    ensures sb == UuidText(bytes)
  {
    sb := "";
    var i := 9;
    while i <= 24
      invariant 9 <= i <= 25
      invariant sb == Emitted(bytes, i)
    {
      EmittedStep(bytes, i);
      sb := sb + Hex2(bytes[i]);
      if i == 12 || i == 14 || i == 16 || i == 18 {
        sb := sb + "-";
      }
      i := i + 1;
    }
    EmittedIsUuidText(bytes, i);
  }

  // ---------------------------------------------------------------------
  // parseBeacon
  // ---------------------------------------------------------------------

  /** What `parseBeacon` yields for a scan record (None when the scan result
    * has no record): a sample when the record is longer than 30 bytes and
    * its UUID matches the listening UUID, if one is set, ignoring case. */
  function ParseBeacon(record: Option<seq<int8>>, rssi: int, listening: Option<string>, now: int)
    : (r: Option<BeaconDto>)
  {
    match record
    case None => None
    case Some(bytes) =>
      if |bytes| > 30 then
        var uuid := UuidText(bytes);
        if listening.Some? && !EqualsIgnoreCase(uuid, listening.value) then None
        else Some(NewBeaconDto(uuid, BigEndian16(bytes[25], bytes[26]), BigEndian16(bytes[27], bytes[28]), rssi, now))
      else None
  }

  /** A sample comes out exactly for a record of more than 30 bytes whose
    * UUID passes the filter; it then carries the RFC 4122 text of bytes
    * 9..24, the unsigned big-endian major and minor, and the scan's rssi. */
  lemma ParseBeaconMeaning(record: Option<seq<int8>>, rssi: int, listening: Option<string>, now: int)
    ensures ParseBeacon(record, rssi, listening, now).Some? <==>
      record.Some? && |record.value| > 30
      && (listening.None? || EqualsIgnoreCase(UuidText(record.value), listening.value))
    ensures var r := ParseBeacon(record, rssi, listening, now);
      r.Some? ==> var bytes := record.value;
        r.value.uuid == UuidText(bytes)
        && r.value.major == LowByte(bytes[25]) * 256 + LowByte(bytes[26])
        && r.value.minor == LowByte(bytes[27]) * 256 + LowByte(bytes[28])
        && 0 <= r.value.major < 65536 && 0 <= r.value.minor < 65536
        && r.value.rssi == rssi && r.value.timestamp == now
  {
  }

  /** Loop form of `parseBeacon`. */
  method DecodeScanRecord(record: Option<seq<int8>>, rssi: int, listening: Option<string>, now: int)
    returns (r: Option<BeaconDto>)
    ensures r == ParseBeacon(record, rssi, listening, now)
  {
    if record.None? || |record.value| <= 30 {
      return None;
    }
    var bytes := record.value;
    var uuid := BuildUuid(bytes);
    if listening.Some? && !EqualsIgnoreCase(uuid, listening.value) {
      return None;
    }
    var major := BigEndian16(bytes[25], bytes[26]);
    var minor := BigEndian16(bytes[27], bytes[28]);
    r := Some(NewBeaconDto(uuid, major, minor, rssi, now));
  }
}
