/** The telemetry track of a video: where the GPS samples come from (a GPX
    sidecar, a GPMF or CAMM data stream, a DJI subtitle stream), the position
    at a video time by bisection and linear interpolation, and the GPS tags
    (GPS Attribute Information, section 4.6.6 of Exif 2.3) written into each
    saved image. ffprobe, ffmpeg, the file system and the GPX, GPMF and SRT
    parsers are the fields of a `Sources` record. */
module Telemetry {
  import opened Common
  import opened Text
  import opened Paths
  import Camm

  // ---------------------------------------------------------------------
  // Position at a video time

  datatype Position = Position(lat: real, lon: real, alt: real)

  function PositionOf(s: GpsSample): Position
  {
    Position(s.lat, s.lon, s.alt)
  }

  function Times(samples: seq<GpsSample>): (times: seq<real>)
    ensures |times| == |samples|
    ensures forall i :: 0 <= i < |samples| ==> times[i] == samples[i].timestamp
  {
    seq(|samples|, i requires 0 <= i < |samples| => samples[i].timestamp)
  }

  /** Python's `bisect.bisect_left(a, x, lo, hi)`: the binary search as the
      library performs it, whatever the order of `a`. */
  function Bisect(a: seq<real>, x: real, lo: nat, hi: nat): (r: nat)
    requires lo <= hi <= |a|
    ensures lo <= r <= hi
    decreases hi - lo
  {
    if lo < hi then
      var mid := (lo + hi) / 2;
      if a[mid] < x then Bisect(a, x, mid + 1, hi) else Bisect(a, x, lo, mid)
    else lo
  }

  function BisectLeft(a: seq<real>, x: real): (r: nat)
    ensures r <= |a|
  {
    Bisect(a, x, 0, |a|)
  }

  /** When the elements below `x` are exactly those before `k`, the search
      finds `k`. */
  lemma {:induction false} BisectFindsSplit(a: seq<real>, x: real, lo: nat, hi: nat, k: nat)
    requires lo <= k <= hi <= |a|
    requires forall j :: lo <= j < k ==> a[j] < x
    requires forall j :: k <= j < hi ==> x <= a[j]
    ensures Bisect(a, x, lo, hi) == k
    decreases hi - lo
  {
    if lo < hi {
      var mid := (lo + hi) / 2;
      if a[mid] < x {
        assert mid < k;
        BisectFindsSplit(a, x, mid + 1, hi, k);
      } else {
        assert k <= mid;
        BisectFindsSplit(a, x, lo, mid, k);
      }
    }
  }

  /** `bisect_left` on sorted input: the number of elements below `x`. */
  lemma BisectLeftIsSplit(a: seq<real>, x: real, k: nat)
    requires Sorted(a) && k <= |a|
    requires k > 0 ==> a[k - 1] < x
    requires k < |a| ==> x <= a[k]
    ensures BisectLeft(a, x) == k
  {
    BisectFindsSplit(a, x, 0, |a|, k);
  }

  /** `p1 + (p2 - p1) * ratio`, coordinate by coordinate. */
  function Interpolate(p1: GpsSample, p2: GpsSample, ratio: real): Position
  {
    Position(p1.lat + (p2.lat - p1.lat) * ratio,
             p1.lon + (p2.lon - p1.lon) * ratio,
             p1.alt + (p2.alt - p1.alt) * ratio)
  }

  /** `get_gps_at_time(timestamp)`. */
  function GpsAt(hasGps: bool, samples: seq<GpsSample>, t: real): Option<Position>
  {
    if !hasGps || |samples| == 0 then None
    else
      var times := Times(samples);
      var idx := BisectLeft(times, t);
      if idx == 0 then Some(PositionOf(samples[0]))
      else if idx >= |samples| then Some(PositionOf(samples[|samples| - 1]))
      else
        var t1 := times[idx - 1];
        var t2 := times[idx];
        if t2 == t1 then Some(PositionOf(samples[idx]))
        else Some(Interpolate(samples[idx - 1], samples[idx], (t - t1) / (t2 - t1)))
  }

  /** A track is sorted when its timestamps never decrease. */
  predicate SortedTrack(samples: seq<GpsSample>)
  {
    forall i, j :: 0 <= i < j < |samples| ==> samples[i].timestamp <= samples[j].timestamp
  }

  lemma SortedTimes(samples: seq<GpsSample>)
    requires SortedTrack(samples)
    ensures Sorted(Times(samples))
  {
  }

  /** There is a position exactly when GPS is on and the track is non-empty. */
  lemma GpsAtDefined(hasGps: bool, samples: seq<GpsSample>, t: real)
    ensures GpsAt(hasGps, samples, t).Some? <==> hasGps && |samples| > 0
  {
  }

  /** Up to the first timestamp, the first sample is returned unchanged. */
  lemma GpsAtBeforeFirst(samples: seq<GpsSample>, t: real)
    requires |samples| > 0 && SortedTrack(samples) && t <= samples[0].timestamp
    ensures GpsAt(true, samples, t) == Some(PositionOf(samples[0]))
  {
    SortedTimes(samples);
    BisectLeftIsSplit(Times(samples), t, 0);
  }

  /** After the last timestamp, the last sample is returned unchanged. */
  lemma GpsAtAfterLast(samples: seq<GpsSample>, t: real)
    requires |samples| > 0 && SortedTrack(samples) && t > samples[|samples| - 1].timestamp
    ensures GpsAt(true, samples, t) == Some(PositionOf(samples[|samples| - 1]))
  {
    SortedTimes(samples);
    BisectLeftIsSplit(Times(samples), t, |samples|);
  }

  lemma RatioBounds(t1: real, t: real, t2: real)
    requires t1 < t <= t2
    ensures 0.0 < (t - t1) / (t2 - t1) <= 1.0
  {
    var r := (t - t1) / (t2 - t1);
    assert r * (t2 - t1) == t - t1;
    if r > 1.0 {
      MulGreater(r, 1.0, t2 - t1);
    }
  }

  lemma MulGreater(a: real, b: real, c: real)
    requires a > b && c > 0.0
    ensures a * c > b * c
  {
  }

  predicate Between(x: real, a: real, b: real)
  {
    (a <= x <= b) || (b <= x <= a)
  }

  /** A value moved a fraction of the way towards another stays between them. */
  lemma LerpBetween(a: real, b: real, ratio: real)
    requires 0.0 <= ratio <= 1.0
    ensures Between(a + (b - a) * ratio, a, b)
  {
    if a <= b {
      assert (b - a) * ratio <= (b - a) * 1.0;
    } else {
      assert (a - b) * ratio <= (a - b) * 1.0;
    }
  }

  lemma InterpolateBetween(p1: GpsSample, p2: GpsSample, ratio: real)
    requires 0.0 <= ratio <= 1.0
    ensures var p := Interpolate(p1, p2, ratio);
      Between(p.lat, p1.lat, p2.lat) && Between(p.lon, p1.lon, p2.lon) && Between(p.alt, p1.alt, p2.alt)
  {
    LerpBetween(p1.lat, p2.lat, ratio);
    LerpBetween(p1.lon, p2.lon, ratio);
    LerpBetween(p1.alt, p2.alt, ratio);
  }

  /** Strictly inside the track, the position is the linear interpolation of
      the two samples around t. */
  lemma GpsAtInside(samples: seq<GpsSample>, t: real, k: nat)
    requires SortedTrack(samples) && 0 < k < |samples|
    requires samples[k - 1].timestamp < t <= samples[k].timestamp
    ensures var t1, t2 := samples[k - 1].timestamp, samples[k].timestamp;
      GpsAt(true, samples, t) == Some(Interpolate(samples[k - 1], samples[k], (t - t1) / (t2 - t1)))
  {
    SortedTimes(samples);
    BisectLeftIsSplit(Times(samples), t, k);
  }

  /** ... and each coordinate lies between those of the two samples. */
  lemma GpsAtBetween(samples: seq<GpsSample>, t: real, k: nat)
    requires SortedTrack(samples) && 0 < k < |samples|
    requires samples[k - 1].timestamp < t <= samples[k].timestamp
    ensures GpsAt(true, samples, t).Some?
    ensures var p := GpsAt(true, samples, t).value;
      Between(p.lat, samples[k - 1].lat, samples[k].lat) &&
      Between(p.lon, samples[k - 1].lon, samples[k].lon) &&
      Between(p.alt, samples[k - 1].alt, samples[k].alt)
  {
    GpsAtInside(samples, t, k);
    var p1, p2 := samples[k - 1], samples[k];
    RatioBounds(p1.timestamp, t, p2.timestamp);
    InterpolateBetween(p1, p2, (t - p1.timestamp) / (p2.timestamp - p1.timestamp));
  }

  /** At the time of a sample that follows a strictly earlier one (or is the
      first), that sample is returned exactly. */
  lemma GpsAtSampleTime(samples: seq<GpsSample>, k: nat)
    requires SortedTrack(samples) && k < |samples|
    requires k > 0 ==> samples[k - 1].timestamp < samples[k].timestamp
    ensures GpsAt(true, samples, samples[k].timestamp) == Some(PositionOf(samples[k]))
  {
    var t := samples[k].timestamp;
    if k == 0 {
      GpsAtBeforeFirst(samples, t);
    } else {
      var p1, p2 := samples[k - 1], samples[k];
      GpsAtInside(samples, t, k);
      DivSelf(p2.timestamp - p1.timestamp);
      InterpolateAtOne(p1, p2);
    }
  }

  lemma DivSelf(d: real)
    requires d != 0.0
    ensures d / d == 1.0
  {
  }

  lemma InterpolateAtOne(p1: GpsSample, p2: GpsSample)
    ensures Interpolate(p1, p2, 1.0) == PositionOf(p2)
  {
  }

  /** Whatever the order of `a`, a result strictly inside the range was
      reached by probing both neighbours: the one before is below `x`, the
      one at it is not. */
  lemma BisectBracket(a: seq<real>, x: real, lo: nat, hi: nat)
    requires lo <= hi <= |a|
    ensures var r := Bisect(a, x, lo, hi);
      (lo < r ==> a[r - 1] < x) && (r < hi ==> x <= a[r])
  {
    BisectBelow(a, x, lo, hi);
    BisectAbove(a, x, lo, hi);
  }

  lemma {:induction false} BisectBelow(a: seq<real>, x: real, lo: nat, hi: nat)
    requires lo <= hi <= |a|
    ensures var r := Bisect(a, x, lo, hi); lo < r ==> a[r - 1] < x
    decreases hi - lo
  {
    if lo < hi {
      var mid := (lo + hi) / 2;
      if a[mid] < x {
        BisectBelow(a, x, mid + 1, hi);
      } else {
        BisectBelow(a, x, lo, mid);
      }
    }
  }

  lemma {:induction false} BisectAbove(a: seq<real>, x: real, lo: nat, hi: nat)
    requires lo <= hi <= |a|
    ensures var r := Bisect(a, x, lo, hi); r < hi ==> x <= a[r]
    decreases hi - lo
  {
    if lo < hi {
      var mid := (lo + hi) / 2;
      if a[mid] < x {
        BisectAbove(a, x, mid + 1, hi);
      } else {
        BisectAbove(a, x, lo, mid);
      }
    }
  }

  /** The samples around t always have distinct times, sorted track or not:
      the equal-bracket branch (which would return the later sample) is never
      taken. */
  lemma BracketIsStrict(samples: seq<GpsSample>, t: real)
    ensures var idx := BisectLeft(Times(samples), t);
      0 < idx < |samples| ==> samples[idx - 1].timestamp < t <= samples[idx].timestamp
  {
    BisectBracket(Times(samples), t, 0, |samples|);
  }

  // ---------------------------------------------------------------------
  // GPS tags of Exif 2.3

  /** An Exif RATIONAL: numerator over denominator. */
  datatype Rational = Rational(num: int, den: int)

  /** `to_rational(x)`: micro-units, truncated toward zero. */
  function ToRational(x: real): (r: Rational)
    ensures r.den == 1000000
  {
    Rational(Trunc(x * 1000000.0), 1000000)
  }

  /** A non-negative value is represented from below, to within one
      millionth; an integer exactly. */
  lemma ToRationalBounds(x: real)
    ensures x >= 0.0 ==> x - 0.000001 < ToRational(x).num as real / 1000000.0 <= x
    ensures x < 0.0 ==> x <= ToRational(x).num as real / 1000000.0 < x + 0.000001
    ensures x == x.Floor as real ==> ToRational(x).num == x.Floor * 1000000
  {
  }

  /** Degrees, whole minutes and seconds of an absolute angle. */
  datatype Dms = Dms(deg: int, min: int, sec: real)

  /** The arithmetic of `to_deg_min_sec(value)` before the rational conversion. */
  function DegMinSec(value: real): Dms
  {
    var absValue := Abs(value);
    var deg := Trunc(absValue);
    var minVal := (absValue - deg as real) * 60.0;
    var sec := (minVal - Trunc(minVal) as real) * 60.0;
    Dms(deg, Trunc(minVal), sec)
  }

  /** `to_deg_min_sec(value)`. */
  function ToDegMinSec(value: real): (Rational, Rational, Rational)
  {
    var d := DegMinSec(value);
    (ToRational(d.deg as real), ToRational(d.min as real), ToRational(d.sec))
  }

  /** The parts are in range and add back up to the absolute angle. */
  lemma DegMinSecParts(value: real)
    ensures var d := DegMinSec(value);
      0 <= d.deg && 0 <= d.min < 60 && 0.0 <= d.sec < 60.0 &&
      d.deg as real <= Abs(value) < d.deg as real + 1.0 &&
      d.deg as real + d.min as real / 60.0 + d.sec / 3600.0 == Abs(value)
  {
    var absValue := Abs(value);
    var deg := Trunc(absValue);
    var minVal := (absValue - deg as real) * 60.0;
    assert 0.0 <= minVal < 60.0;
    var m := Trunc(minVal);
    assert m < 60;
  }

  /** The tag block `embed_exif` writes. */
  datatype GpsIfd = GpsIfd(latitudeRef: string, latitude: (Rational, Rational, Rational),
                           longitudeRef: string, longitude: (Rational, Rational, Rational),
                           altitudeRef: int, altitude: Rational)

  function LatitudeRef(lat: real): string { if lat >= 0.0 then "N" else "S" }

  function LongitudeRef(lon: real): string { if lon >= 0.0 then "E" else "W" }

  function BuildGpsIfd(lat: real, lon: real, alt: real): GpsIfd
  {
    GpsIfd(LatitudeRef(lat), ToDegMinSec(lat), LongitudeRef(lon), ToDegMinSec(lon), 0, ToRational(alt))
  }

  /** The sign of a coordinate goes to its reference letter and the
      magnitude to the degrees, minutes and seconds, so the signed angle can
      be recovered from the two. */
  lemma GpsIfdRecoversCoordinates(lat: real, lon: real, alt: real)
    ensures var ifd := BuildGpsIfd(lat, lon, alt);
      (ifd.latitudeRef == "N" <==> lat >= 0.0) && (ifd.latitudeRef == "S" <==> lat < 0.0) &&
      (ifd.longitudeRef == "E" <==> lon >= 0.0) && (ifd.longitudeRef == "W" <==> lon < 0.0) &&
      ifd.altitudeRef == 0 && ifd.altitude == ToRational(alt)
    ensures var d := DegMinSec(lat);
      (if lat >= 0.0 then 1.0 else -1.0) * (d.deg as real + d.min as real / 60.0 + d.sec / 3600.0) == lat
    ensures var d := DegMinSec(lon);
      (if lon >= 0.0 then 1.0 else -1.0) * (d.deg as real + d.min as real / 60.0 + d.sec / 3600.0) == lon
  {
    DegMinSecParts(lat);
    DegMinSecParts(lon);
  }

  /** How `embed_exif` writes the tags: in place for JPEG, by re-saving the
      image otherwise. */
  datatype ExifWrite = InsertInPlace | Resave

  function ExifWriter(imagePath: string): (w: ExifWrite)
    ensures w == InsertInPlace <==> Lower(SplitExt(imagePath).1) in [".jpg", ".jpeg"]
  {
    if Lower(SplitExt(imagePath).1) in [".jpg", ".jpeg"] then InsertInPlace else Resave
  }

  // ---------------------------------------------------------------------
  // Where the track comes from

  /** One entry of ffprobe's `streams` list. */
  datatype Stream = Stream(index: int, codecType: string, codecTag: string)

  /** ffprobe's answer: the container duration (None when missing or not a
      number) and the streams. */
  datatype Probe = Probe(duration: Option<real>, streams: seq<Stream>)

  function ProbeDuration(p: Probe): real
  {
    if p.duration.Some? then p.duration.value else 0.0
  }

  /** The outside world as `extract_metadata` sees it. A `None` stands for a
      call that raised (or a process that failed). */
  datatype Sources = Sources(
    fileExists: string -> bool,
    readGpx: string -> Option<seq<GpsSample>>,
    probe: string -> Option<Probe>,
    dumpStream: (string, int, string) -> Option<seq<byte>>,
    parseGpmf: seq<byte> -> Option<seq<GpsSample>>,
    parseSrt: seq<byte> -> Option<seq<GpsSample>>,
    decodeFix: seq<byte> -> Camm.Fix)

  /** The handler's state: `has_gps` and `gps_samples`. */
  datatype Track = Track(hasGps: bool, samples: seq<GpsSample>)

  /** The result of `extract_metadata` and the state it leaves. */
  datatype Extraction = Extraction(ok: bool, track: Track)

  /** `f"{os.path.splitext(video_path)[0]}.gpx"`. */
  function GpxPath(videoPath: string): string
  {
    SplitExt(videoPath).0 + ".gpx"
  }

  /** A data stream carrying GoPro (gpmd) or camera-motion (camm) telemetry. */
  predicate IsTelemetry(s: Stream)
  {
    s.codecType == "data" && (Contains(s.codecTag, "gpmd") || Contains(s.codecTag, "camm"))
  }

  /** The position of the first telemetry stream at or after `i`. */
  function FirstTelemetryFrom(streams: seq<Stream>, i: nat): (r: Option<nat>)
    requires i <= |streams|
    ensures r.Some? ==> i <= r.value < |streams| && IsTelemetry(streams[r.value])
    ensures r.Some? ==> forall k :: i <= k < r.value ==> !IsTelemetry(streams[k])
    ensures r.None? ==> forall k :: i <= k < |streams| ==> !IsTelemetry(streams[k])
    decreases |streams| - i
  {
    if i == |streams| then None
    else if IsTelemetry(streams[i]) then Some(i)
    else FirstTelemetryFrom(streams, i + 1)
  }

  /** The stream index of the first subtitle stream at or after `i`. */
  function FirstSubtitleFrom(streams: seq<Stream>, i: nat): (r: Option<int>)
    requires i <= |streams|
    ensures r.Some? ==> exists k :: i <= k < |streams| && streams[k].codecType == "subtitle" && streams[k].index == r.value &&
                                    forall j :: i <= j < k ==> streams[j].codecType != "subtitle"
    ensures r.None? ==> forall k :: i <= k < |streams| ==> streams[k].codecType != "subtitle"
    decreases |streams| - i
  {
    if i == |streams| then None
    else if streams[i].codecType == "subtitle" then Some(streams[i].index)
    else FirstSubtitleFrom(streams, i + 1)
  }

  /** `_extract_gpx_data`: the sidecar's samples when it reads and is non-empty. */
  function GpxSamples(src: Sources, gpxPath: string): (r: Option<seq<GpsSample>>)
    ensures r.Some? ==> r.value != []
  {
    match src.readGpx(gpxPath)
    case Some(s) => if s != [] then Some(s) else None
    case None => None
  }

  /** `_extract_gpmf_data`: the parsed samples replace the track. */
  function GpmfTrack(videoPath: string, index: int, src: Sources, t: Track): Track
  {
    match src.dumpStream(videoPath, index, "data")
    case None => t
    case Some(raw) =>
      match src.parseGpmf(raw)
      case None => t
      case Some(s) => Track(t.hasGps, s)
  }

  /** `_extract_camm_data`: the decoded samples replace the track, and GPS is
      on when there is at least one. */
  function CammTrack(videoPath: string, index: int, duration: real, src: Sources, t: Track): Track
  {
    match src.dumpStream(videoPath, index, "data")
    case None => t
    case Some(raw) =>
      var s := Camm.Stamp(Camm.Fixes(raw, 0, src.decodeFix), duration);
      Track(t.hasGps || s != [], s)
  }

  /** `_extract_srt_data`: the same for a subtitle stream. */
  function SrtTrack(videoPath: string, index: int, src: Sources, t: Track): Track
  {
    match src.dumpStream(videoPath, index, "srt")
    case None => t
    case Some(raw) =>
      match src.parseSrt(raw)
      case None => t
      case Some(s) => Track(t.hasGps || s != [], s)
  }

  /** The data-stream branch: GPMF when the tag says gpmd, CAMM otherwise. */
  function DataStreamTrack(videoPath: string, s: Stream, duration: real, src: Sources, t: Track): Track
  {
    if Contains(s.codecTag, "gpmd") then GpmfTrack(videoPath, s.index, src, t)
    else CammTrack(videoPath, s.index, duration, src, t)
  }

  /** What `extract_metadata(video_path)` returns and leaves behind. */
  function ExtractOutcome(videoPath: string, src: Sources, before: Track): Extraction
  {
    var gpx := GpxPath(videoPath);
    if src.fileExists(gpx) && GpxSamples(src, gpx).Some? then
      Extraction(true, Track(true, GpxSamples(src, gpx).value))
    else
      match src.probe(videoPath)
      case None => Extraction(false, before)
      case Some(p) =>
        match FirstTelemetryFrom(p.streams, 0)
        case Some(k) =>
          Extraction(true, DataStreamTrack(videoPath, p.streams[k], ProbeDuration(p), src, Track(true, before.samples)))
        case None =>
          match FirstSubtitleFrom(p.streams, 0)
          case None => Extraction(false, before)
          case Some(index) =>
            var t := SrtTrack(videoPath, index, src, before);
            Extraction(t.hasGps, t)
  }

  class TelemetryHandler {
    var hasGps: bool
    var gpsSamples: seq<GpsSample>

    constructor()
      ensures !hasGps && gpsSamples == []
    {
      hasGps := false;
      gpsSamples := [];
    }

    function State(): Track
      reads this
    {
      Track(hasGps, gpsSamples)
    }

    /** `get_gps_at_time(timestamp)`: exposes `GpsAt` on the handler's own
        state (none without GPS or samples, otherwise a position). */
    method GetGpsAtTime(timestamp: real) returns (r: Option<Position>)
      ensures r == GpsAt(hasGps, gpsSamples, timestamp)
      ensures r.Some? <==> hasGps && |gpsSamples| > 0
    {
      if !hasGps || |gpsSamples| == 0 {
        return None;
      }
      var times := Times(gpsSamples);
      var idx := BisectLeft(times, timestamp);
      if idx == 0 {
        return Some(PositionOf(gpsSamples[0]));
      }
      if idx >= |gpsSamples| {
        return Some(PositionOf(gpsSamples[|gpsSamples| - 1]));
      }
      var t1, t2 := times[idx - 1], times[idx];
      if t2 == t1 {
        return Some(PositionOf(gpsSamples[idx]));
      }
      var ratio := (timestamp - t1) / (t2 - t1);
      r := Some(Interpolate(gpsSamples[idx - 1], gpsSamples[idx], ratio));
    }

    /** `extract_metadata(video_path)`. */
    method ExtractMetadata(videoPath: string, src: Sources) returns (ok: bool)
      modifies this
      ensures Extraction(ok, State()) == ExtractOutcome(videoPath, src, old(State()))
    {
      var baseName := SplitExt(videoPath).0;
      var gpxPath := baseName + ".gpx";
      if src.fileExists(gpxPath) {
        var success := ExtractGpxData(gpxPath, src);
        if success {
          hasGps := true;
          return true;
        }
      }
      var probe := src.probe(videoPath);
      if probe.None? {
        return false;
      }
      var streams := probe.value.streams;
      var duration := ProbeDuration(probe.value);
      var subtitleStreamIndex: Option<int> := None;
      var i := 0;
      while i < |streams|
        invariant 0 <= i <= |streams|
        invariant FirstTelemetryFrom(streams, 0) == FirstTelemetryFrom(streams, i)
        invariant FirstSubtitleFrom(streams, 0) == if subtitleStreamIndex.Some? then subtitleStreamIndex else FirstSubtitleFrom(streams, i)
        invariant State() == old(State())
      {
        var stream := streams[i];
        if stream.codecType == "data" {
          if Contains(stream.codecTag, "gpmd") || Contains(stream.codecTag, "camm") {
            hasGps := true;
            var streamIndex := stream.index;
            if Contains(stream.codecTag, "gpmd") {
              ExtractGpmfData(videoPath, streamIndex, src);
            } else {
              ExtractCammData(videoPath, streamIndex, duration, src);
            }
            return true;
          }
        }
        if stream.codecType == "subtitle" && subtitleStreamIndex.None? {
          subtitleStreamIndex := Some(stream.index);
        }
        i := i + 1;
      }
      if subtitleStreamIndex.Some? {
        ExtractSrtData(videoPath, subtitleStreamIndex.value, src);
        if hasGps {
          return true;
        }
      }
      return false;
    }

    /** `_extract_gpx_data(gpx_path)`. */
    method ExtractGpxData(gpxPath: string, src: Sources) returns (success: bool)
      modifies this
      ensures success <==> GpxSamples(src, gpxPath).Some?
      ensures success ==> gpsSamples == GpxSamples(src, gpxPath).value && hasGps == old(hasGps)
      ensures !success ==> State() == old(State())
    {
      var samples := src.readGpx(gpxPath);
      if samples.Some? && samples.value != [] {
        gpsSamples := samples.value;
        return true;
      }
      return false;
    }

    /** `_extract_camm_data(video_path, stream_index, duration)`. */
    method ExtractCammData(videoPath: string, streamIndex: int, duration: real, src: Sources)
      modifies this
      ensures State() == CammTrack(videoPath, streamIndex, duration, src, old(State()))
    {
      var rawData := src.dumpStream(videoPath, streamIndex, "data");
      if rawData.Some? {
        gpsSamples := Camm.ParseCammData(rawData.value, duration, src.decodeFix);
        if gpsSamples != [] {
          hasGps := true;
        }
      }
    }

    /** `_extract_gpmf_data(video_path, stream_index)`. */
    method ExtractGpmfData(videoPath: string, streamIndex: int, src: Sources)
      modifies this
      ensures State() == GpmfTrack(videoPath, streamIndex, src, old(State()))
    {
      var rawData := src.dumpStream(videoPath, streamIndex, "data");
      if rawData.Some? {
        var parsed := src.parseGpmf(rawData.value);
        if parsed.Some? {
          gpsSamples := parsed.value;
        }
      }
    }

    /** `_extract_srt_data(video_path, stream_index)`. */
    method ExtractSrtData(videoPath: string, streamIndex: int, src: Sources)
      modifies this
      ensures State() == SrtTrack(videoPath, streamIndex, src, old(State()))
    {
      var rawData := src.dumpStream(videoPath, streamIndex, "srt");
      if rawData.Some? {
        var parsed := src.parseSrt(rawData.value);
        if parsed.Some? {
          gpsSamples := parsed.value;
          if gpsSamples != [] {
            hasGps := true;
          }
        }
      }
    }
  }

  // ---------------------------------------------------------------------
  // Properties of the source choice

  /** A GPX sidecar that loads wins, whatever the video holds. */
  lemma SidecarFirst(videoPath: string, src: Sources, before: Track)
    requires src.fileExists(GpxPath(videoPath))
    requires src.readGpx(GpxPath(videoPath)).Some? && src.readGpx(GpxPath(videoPath)).value != []
    ensures ExtractOutcome(videoPath, src, before) == Extraction(true, Track(true, src.readGpx(GpxPath(videoPath)).value))
  {
  }

  /** Without a usable sidecar, a gpmd or camm data stream anywhere in the
      list makes the call succeed with GPS on, even when nothing decodes, and
      the subtitle streams are not used. */
  lemma DataStreamBeforeSubtitles(videoPath: string, src: Sources, before: Track, p: Probe, k: nat)
    requires !(src.fileExists(GpxPath(videoPath)) && GpxSamples(src, GpxPath(videoPath)).Some?)
    requires src.probe(videoPath) == Some(p) && k < |p.streams| && IsTelemetry(p.streams[k])
    ensures ExtractOutcome(videoPath, src, before).ok
    ensures ExtractOutcome(videoPath, src, before).track.hasGps
    ensures exists j :: (0 <= j <= k && IsTelemetry(p.streams[j]) &&
      ExtractOutcome(videoPath, src, before).track ==
        DataStreamTrack(videoPath, p.streams[j], ProbeDuration(p), src, Track(true, before.samples)))
  {
    var j := FirstTelemetryFrom(p.streams, 0).value;
    var t := DataStreamTrack(videoPath, p.streams[j], ProbeDuration(p), src, Track(true, before.samples));
    assert t.hasGps;
  }

  /** Success always comes with GPS on; a failure leaves GPS as it was. */
  lemma OutcomeConsistent(videoPath: string, src: Sources, before: Track)
    ensures var e := ExtractOutcome(videoPath, src, before);
      (e.ok ==> e.track.hasGps) && (!e.ok ==> e.track.hasGps == before.hasGps)
  {
    var gpx := GpxPath(videoPath);
    if !(src.fileExists(gpx) && GpxSamples(src, gpx).Some?) && src.probe(videoPath).Some? {
      var p := src.probe(videoPath).value;
      var first := FirstTelemetryFrom(p.streams, 0);
      if first.Some? {
        var s := p.streams[first.value];
        var t := Track(true, before.samples);
        assert DataStreamTrack(videoPath, s, ProbeDuration(p), src, t).hasGps;
      }
    }
  }

  /** On a fresh handler a failed extraction leaves no track, so every
      position query answers None. */
  lemma FreshFailureHasNoPositions(videoPath: string, src: Sources, t: real)
    requires !ExtractOutcome(videoPath, src, Track(false, [])).ok
    ensures var tr := ExtractOutcome(videoPath, src, Track(false, [])).track;
      !tr.hasGps && GpsAt(tr.hasGps, tr.samples, t) == None
  {
    OutcomeConsistent(videoPath, src, Track(false, []));
  }

  /** A CAMM stream: the decoded fixes, timed over the container duration. */
  lemma CammStreamSamples(videoPath: string, src: Sources, p: Probe, raw: seq<byte>)
    requires !(src.fileExists(GpxPath(videoPath)) && GpxSamples(src, GpxPath(videoPath)).Some?)
    requires src.probe(videoPath) == Some(p) && |p.streams| > 0
    requires IsTelemetry(p.streams[0]) && !Contains(p.streams[0].codecTag, "gpmd")
    requires src.dumpStream(videoPath, p.streams[0].index, "data") == Some(raw)
    ensures ExtractOutcome(videoPath, src, Track(false, [])) ==
      Extraction(true, Track(true, Camm.Stamp(Camm.Fixes(raw, 0, src.decodeFix), ProbeDuration(p))))
  {
  }
}
