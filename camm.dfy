/** The decoder for the camera-motion (CAMM) metadata stream of Insta360
    files: a sequence of records, each a little-endian 16-bit reserved field
    and a 16-bit type followed by a payload whose size the type determines.
    GPS records (type 6) yield fixes; an unknown type triggers a byte-by-byte
    scan for the next plausible header. The decoding of the IEEE-754 payload
    (`'<ddf'`) is a parameter. */
module Camm {
  import opened Common

  /** A decoded GPS payload: latitude, longitude, altitude. */
  datatype Fix = Fix(lat: real, lon: real, alt: real)

  /** `struct.unpack_from('<H', raw, i)`. */
  function U16(raw: seq<byte>, i: nat): (v: nat)
    requires i + 2 <= |raw|
    ensures v < 65536
  {
    raw[i] as int + 256 * raw[i + 1] as int
  }

  /** The code's payload-size table; -1 marks an unknown type. */
  function PayloadSize(packetType: nat): (r: int)
    ensures r >= 0 <==> packetType in {0, 1, 2, 3, 6}
    ensures r <= 20
  {
    if packetType == 6 then 20
    else if packetType == 2 then 12
    else if packetType == 3 then 12
    else if packetType == 1 then 8
    else if packetType == 0 then 0
    else -1
  }

  /** The fix filter: inside the coordinate ranges and not at the (0, 0) island. */
  predicate Plausible(f: Fix)
  {
    -90.0 <= f.lat <= 90.0 && -180.0 <= f.lon <= 180.0 && (Abs(f.lat) > 0.0001 || Abs(f.lon) > 0.0001)
  }

  /** A position the resynchronisation scan accepts: reserved 0, then one of
      the types 1, 2, 3, 6 (type 0 is not accepted). */
  predicate IsResyncPoint(raw: seq<byte>, q: nat)
    requires q + 4 <= |raw|
  {
    U16(raw, q) == 0 && U16(raw, q + 2) in [1, 2, 3, 6]
  }

  /** The first accepted position q ≥ p with q < |raw| - 4. */
  function ResyncFrom(raw: seq<byte>, p: nat): (r: Option<nat>)
    ensures r.Some? ==> p <= r.value && r.value + 4 < |raw|
    decreases |raw| - p
  {
    if p + 4 < |raw| then
      if IsResyncPoint(raw, p) then Some(p) else ResyncFrom(raw, p + 1)
    else None
  }

  /** The scan stops at the first accepted position, and finds none only
      when there is none before the last four bytes. */
  lemma {:induction false} ResyncFromFirst(raw: seq<byte>, p: nat)
    ensures var r := ResyncFrom(raw, p);
      (r.Some? ==> IsResyncPoint(raw, r.value) && forall k :: p <= k < r.value ==> !IsResyncPoint(raw, k)) &&
      (r.None? ==> forall k :: p <= k && k + 4 < |raw| ==> !IsResyncPoint(raw, k))
    decreases |raw| - p
  {
    if p + 4 < |raw| && !IsResyncPoint(raw, p) {
      ResyncFromFirst(raw, p + 1);
    }
  }

  /** The fix a complete record at `offset` contributes: only a GPS record
      whose decoded payload passes the filter yields one. */
  function Kept(raw: seq<byte>, offset: nat, decode: seq<byte> -> Fix): seq<Fix>
    requires offset + 4 <= |raw|
  {
    if U16(raw, offset + 2) == 6 && offset + 24 <= |raw| && Plausible(decode(raw[offset + 4..offset + 24]))
    then [decode(raw[offset + 4..offset + 24])] else []
  }

  /** Where the record loop goes after the header at `offset`: past the
      payload of a known type, to the resynchronisation point after an unknown
      one, or nowhere (None) when the payload is cut short or no header is
      found. */
  function NextOffset(raw: seq<byte>, offset: nat): (r: Option<nat>)
    requires offset + 4 <= |raw|
    ensures r.Some? ==> offset < r.value <= |raw|
  {
    var size := PayloadSize(U16(raw, offset + 2));
    if size >= 0 then
      if offset + 4 + size <= |raw| then Some(offset + 4 + size) else None
    else ResyncFrom(raw, offset + 1)
  }

  /** The fixes the record loop collects from `offset` on, in stream order. */
  function Fixes(raw: seq<byte>, offset: nat, decode: seq<byte> -> Fix): seq<Fix>
    requires offset <= |raw|
    decreases |raw| - offset
  {
    if offset + 4 > |raw| then []
    else
      match NextOffset(raw, offset)
      case None => []
      case Some(q) => Kept(raw, offset, decode) + Fixes(raw, q, decode)
  }

  /** One step of the record loop. */
  lemma FixesStep(raw: seq<byte>, offset: nat, decode: seq<byte> -> Fix)
    requires offset + 4 <= |raw|
    ensures NextOffset(raw, offset).None? ==> Fixes(raw, offset, decode) == []
    ensures NextOffset(raw, offset).Some? ==>
      Fixes(raw, offset, decode) == Kept(raw, offset, decode) + Fixes(raw, NextOffset(raw, offset).value, decode)
    ensures PayloadSize(U16(raw, offset + 2)) < 0 && NextOffset(raw, offset).Some? ==>
      Fixes(raw, offset, decode) == Fixes(raw, NextOffset(raw, offset).value, decode)
  {
    if PayloadSize(U16(raw, offset + 2)) < 0 && NextOffset(raw, offset).Some? {
      var rest := Fixes(raw, NextOffset(raw, offset).value, decode);
      assert [] + rest == rest;
    }
  }

  lemma ConcatAssoc<T>(a: seq<T>, b: seq<T>, c: seq<T>)
    ensures (a + b) + c == a + (b + c)
  {
  }

  /** The synthetic timestamp of sample i of n: spread evenly over a known
      duration, otherwise 5 Hz. */
  function Timestamp(i: nat, n: nat, duration: real): real
    requires i < n
  {
    if duration > 0.0 then (i as real / n as real) * duration else i as real * 0.2
  }

  function Stamp(fixes: seq<Fix>, duration: real): (samples: seq<GpsSample>)
    ensures |samples| == |fixes|
    ensures forall i :: 0 <= i < |fixes| ==>
      samples[i] == GpsSample(Timestamp(i, |fixes|, duration), fixes[i].lat, fixes[i].lon, fixes[i].alt)
  {
    seq(|fixes|, i requires 0 <= i < |fixes| =>
      GpsSample(Timestamp(i, |fixes|, duration), fixes[i].lat, fixes[i].lon, fixes[i].alt))
  }

  /** `parse_camm_data(raw_data, duration)`. */
  method ParseCammData(raw: seq<byte>, duration: real, decode: seq<byte> -> Fix) returns (samples: seq<GpsSample>)
    ensures samples == Stamp(Fixes(raw, 0, decode), duration)
  {
    var offset := 0;
    var length := |raw|;
    var fixes: seq<Fix> := [];
    ghost var all := Fixes(raw, 0, decode);
    while offset < length
      invariant 0 <= offset <= length
      invariant fixes + Fixes(raw, offset, decode) == all
      decreases length - offset
    {
      if offset + 4 > length {
        assert Fixes(raw, offset, decode) == [];
        break;
      }
      var reserved, packetType := U16(raw, offset), U16(raw, offset + 2);
      var currentHeaderOffset := offset;
      ghost var step := NextOffset(raw, currentHeaderOffset);
      FixesStep(raw, currentHeaderOffset, decode);
      offset := offset + 4;
      var payloadSize := PayloadSize(packetType);
      if payloadSize >= 0 {
        if offset + payloadSize > length {
          assert step.None?;
          break;
        }
        var kept := KeepRecord(raw, currentHeaderOffset, decode);
        ghost var rest := Fixes(raw, offset + payloadSize, decode);
        assert step == Some(offset + payloadSize);
        ConcatAssoc(fixes, kept, rest);
        fixes := fixes + kept;
        offset := offset + payloadSize;
      } else {
        var found, resumeAt := ScanForHeader(raw, currentHeaderOffset + 1);
        if !found {
          break;
        }
        assert step == Some(resumeAt);
        offset := resumeAt;
      }
    }
    samples := AssignTimestamps(fixes, duration);
  }

  /** The body of the loop for a complete record: a GPS payload is decoded
      and kept when plausible; other types are skipped. */
  method KeepRecord(raw: seq<byte>, header: nat, decode: seq<byte> -> Fix) returns (kept: seq<Fix>)
    requires header + 4 <= |raw| && header + 4 + PayloadSize(U16(raw, header + 2)) <= |raw|
    ensures kept == Kept(raw, header, decode)
  {
    kept := [];
    if U16(raw, header + 2) == 6 {
      var fix := decode(raw[header + 4..header + 24]);
      if Plausible(fix) {
        kept := [fix];
      }
    }
  }

  /** The resynchronisation scan after an unknown type: from `start`, look
      for reserved 0 followed by a known type while `scan_ptr < length - 4`. */
  method ScanForHeader(raw: seq<byte>, start: nat) returns (found: bool, resumeAt: nat)
    ensures found <==> ResyncFrom(raw, start).Some?
    ensures found ==> resumeAt == ResyncFrom(raw, start).value
  {
    var length := |raw|;
    var scanPtr := start;
    found := false;
    resumeAt := 0;
    while scanPtr < length - 4
      invariant start <= scanPtr
      invariant !found
      invariant ResyncFrom(raw, start) == ResyncFrom(raw, scanPtr)
      decreases length - scanPtr
    {
      var possibleReserved := U16(raw, scanPtr);
      if possibleReserved == 0 {
        var possibleType := U16(raw, scanPtr + 2);
        if possibleType in [1, 2, 3, 6] {
          resumeAt := scanPtr;
          found := true;
          break;
        }
      }
      scanPtr := scanPtr + 1;
    }
  }

  /** The timestamp pass at the end of `parse_camm_data`. */
  method AssignTimestamps(fixes: seq<Fix>, duration: real) returns (samples: seq<GpsSample>)
    ensures samples == Stamp(fixes, duration)
  {
    samples := [];
    var n := |fixes|;
    for i := 0 to n
      invariant |samples| == i
      invariant forall k :: 0 <= k < i ==>
        samples[k] == GpsSample(Timestamp(k, n, duration), fixes[k].lat, fixes[k].lon, fixes[k].alt)
    {
      var timestamp := if duration > 0.0 then (i as real / n as real) * duration else i as real * 0.2;
      samples := samples + [GpsSample(timestamp, fixes[i].lat, fixes[i].lon, fixes[i].alt)];
    }
  }

  // ---------------------------------------------------------------------
  // Properties of the decoder

  /** Every kept fix passes the plausibility filter. */
  lemma {:induction false} FixesPlausible(raw: seq<byte>, offset: nat, decode: seq<byte> -> Fix)
    requires offset <= |raw|
    ensures forall i :: 0 <= i < |Fixes(raw, offset, decode)| ==> Plausible(Fixes(raw, offset, decode)[i])
    decreases |raw| - offset
  {
    if offset + 4 <= |raw| && NextOffset(raw, offset).Some? {
      FixesPlausible(raw, NextOffset(raw, offset).value, decode);
    }
  }

  /** Each fix consumes a whole 24-byte record, so a stream of L bytes holds
      at most L / 24 fixes. */
  lemma {:induction false} FixesSize(raw: seq<byte>, offset: nat, decode: seq<byte> -> Fix)
    requires offset <= |raw|
    ensures 24 * |Fixes(raw, offset, decode)| <= |raw| - offset
    decreases |raw| - offset
  {
    if offset + 4 <= |raw| && NextOffset(raw, offset).Some? {
      var q := NextOffset(raw, offset).value;
      FixesSize(raw, q, decode);
      assert Kept(raw, offset, decode) != [] ==> q == offset + 24;
    }
  }

  /** Two streams of equal length that agree from position `from` on. */
  predicate AgreeFrom(raw: seq<byte>, raw': seq<byte>, from: nat)
  {
    |raw| == |raw'| && forall k :: from <= k < |raw| ==> raw[k] == raw'[k]
  }

  lemma {:induction false} ResyncReadsSuffix(raw: seq<byte>, raw': seq<byte>, p: nat, from: nat)
    requires from <= p && AgreeFrom(raw, raw', from)
    ensures ResyncFrom(raw, p) == ResyncFrom(raw', p)
    decreases |raw| - p
  {
    if p + 4 < |raw| {
      assert U16(raw, p) == U16(raw', p) && U16(raw, p + 2) == U16(raw', p + 2);
      ResyncReadsSuffix(raw, raw', p + 1, from);
    }
  }

  /** One step of the loop reads only the type and payload of its record. */
  lemma StepReadsSuffix(raw: seq<byte>, raw': seq<byte>, offset: nat, from: nat, decode: seq<byte> -> Fix)
    requires from <= offset + 1 && offset + 4 <= |raw| && AgreeFrom(raw, raw', from)
    ensures NextOffset(raw, offset) == NextOffset(raw', offset)
    ensures Kept(raw, offset, decode) == Kept(raw', offset, decode)
  {
    assert U16(raw, offset + 2) == U16(raw', offset + 2);
    if offset + 24 <= |raw| {
      assert raw[offset + 4..offset + 24] == raw'[offset + 4..offset + 24];
    }
    ResyncReadsSuffix(raw, raw', offset + 1, from);
  }

  /** The decoder never looks behind its offset (nor at the low byte of the
      reserved field there): two streams that agree from `offset + 1` on
      yield the same fixes. */
  lemma {:induction false} FixesReadsSuffix(raw: seq<byte>, raw': seq<byte>, offset: nat, from: nat, decode: seq<byte> -> Fix)
    requires from <= offset + 1 && offset <= |raw| && AgreeFrom(raw, raw', from)
    ensures Fixes(raw, offset, decode) == Fixes(raw', offset, decode)
    decreases |raw| - offset
  {
    if offset + 4 <= |raw| {
      StepReadsSuffix(raw, raw', offset, from, decode);
      if NextOffset(raw, offset).Some? {
        FixesReadsSuffix(raw, raw', NextOffset(raw, offset).value, from, decode);
      }
    }
  }

  /** The reserved field of a record with a known type is never checked:
      overwriting it changes nothing. (After an unknown type the scan starts
      one byte in, so the field's high byte can matter there.) */
  lemma ReservedIgnored(raw: seq<byte>, b0: byte, b1: byte, decode: seq<byte> -> Fix)
    requires 4 <= |raw| && PayloadSize(U16(raw, 2)) >= 0
    ensures Fixes(raw[0 := b0][1 := b1], 0, decode) == Fixes(raw, 0, decode)
  {
    var raw' := raw[0 := b0][1 := b1];
    assert AgreeFrom(raw, raw', 2);
    assert U16(raw', 2) == U16(raw, 2);
    if 24 <= |raw| {
      assert raw[4..24] == raw'[4..24];
    }
    assert Kept(raw, 0, decode) == Kept(raw', 0, decode);
    assert NextOffset(raw, 0) == NextOffset(raw', 0);
    if NextOffset(raw, 0).Some? {
      FixesReadsSuffix(raw, raw', NextOffset(raw, 0).value, 2, decode);
    }
  }

  /** A single GPS record yields its fix exactly when the fix is plausible. */
  lemma GpsRecord(payload: seq<byte>, decode: seq<byte> -> Fix)
    requires |payload| == 20
    ensures Fixes([0, 0, 6, 0] + payload, 0, decode)
      == if Plausible(decode(payload)) then [decode(payload)] else []
  {
    var raw: seq<byte> := [0, 0, 6, 0] + payload;
    assert raw[4..24] == payload;
    assert Fixes(raw, 24, decode) == [];
  }

  /** A GPS record cut short is dropped and parsing stops. */
  lemma TruncatedRecord(payload: seq<byte>, decode: seq<byte> -> Fix)
    requires |payload| < 20
    ensures Fixes([0, 0, 6, 0] + payload, 0, decode) == []
  {
  }

  /** After an unknown type, the scan skips to the next header with reserved
      0 and a known type, and parsing resumes there. */
  lemma ResyncExample(payload: seq<byte>, decode: seq<byte> -> Fix)
    requires |payload| == 20
    ensures Fixes([0, 0, 9, 0] + [0, 0, 6, 0] + payload, 0, decode)
      == if Plausible(decode(payload)) then [decode(payload)] else []
  {
    var raw: seq<byte> := [0, 0, 9, 0] + [0, 0, 6, 0] + payload;
    assert !IsResyncPoint(raw, 1) && !IsResyncPoint(raw, 2) && !IsResyncPoint(raw, 3);
    assert IsResyncPoint(raw, 4);
    assert ResyncFrom(raw, 4) == Some(4);
    assert ResyncFrom(raw, 3) == Some(4);
    assert ResyncFrom(raw, 2) == Some(4);
    assert raw[8..28] == payload;
    assert Fixes(raw, 28, decode) == [];
  }

  /** An unknown type with no acceptable header after it ends the parse. */
  lemma UnknownTypeWithoutResync(raw: seq<byte>, decode: seq<byte> -> Fix)
    requires 4 <= |raw| && PayloadSize(U16(raw, 2)) < 0
    requires forall k :: 1 <= k && k + 4 < |raw| ==> !IsResyncPoint(raw, k)
    ensures Fixes(raw, 0, decode) == []
  {
    ResyncFromFirst(raw, 1);
  }

  lemma FractionBelowOne(i: nat, n: nat, d: real)
    requires i < n && d > 0.0
    ensures 0.0 <= (i as real / n as real) * d < d
  {
    var q := i as real / n as real;
    assert q * n as real == i as real;
    assert 0.0 <= q < 1.0;
    assert q * d < 1.0 * d by { MulStrict(q, 1.0, d); }
  }

  lemma MulStrict(a: real, b: real, c: real)
    requires a < b && c > 0.0
    ensures a * c < b * c
  {
  }

  lemma FractionIncreasing(i: nat, n: nat, d: real)
    requires 0 < i < n && d > 0.0
    ensures ((i - 1) as real / n as real) * d < (i as real / n as real) * d
  {
    var a, b := (i - 1) as real / n as real, i as real / n as real;
    assert b - a == 1.0 / n as real;
    MulStrict(a, b, d);
  }

  lemma TimestampBounds(i: nat, n: nat, duration: real)
    requires i < n && duration > 0.0
    ensures 0.0 <= Timestamp(i, n, duration) < duration
    ensures i == 0 ==> Timestamp(i, n, duration) == 0.0
    ensures i > 0 ==> Timestamp(i - 1, n, duration) < Timestamp(i, n, duration)
  {
    FractionBelowOne(i, n, duration);
    if i > 0 {
      FractionIncreasing(i, n, duration);
    }
  }

  /** With a positive duration the samples are spread evenly from 0 up to
      (not reaching) the duration, in increasing order; without one they are
      0.2 s apart. */
  lemma StampTimes(fixes: seq<Fix>, duration: real)
    ensures var s := Stamp(fixes, duration);
      (duration > 0.0 ==>
        (|s| > 0 ==> s[0].timestamp == 0.0) &&
        (forall i :: 0 <= i < |s| ==> 0.0 <= s[i].timestamp < duration) &&
        (forall i :: 0 < i < |s| ==> s[i - 1].timestamp < s[i].timestamp)) &&
      (duration <= 0.0 ==> forall i :: 0 <= i < |s| ==> s[i].timestamp == i as real * 0.2)
  {
    var s := Stamp(fixes, duration);
    var n := |fixes|;
    if duration > 0.0 {
      forall i | 0 <= i < n
        ensures 0.0 <= s[i].timestamp < duration
        ensures i == 0 ==> s[i].timestamp == 0.0
        ensures i > 0 ==> s[i - 1].timestamp < s[i].timestamp
      {
        TimestampBounds(i, n, duration);
      }
    }
  }
}
