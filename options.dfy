/** The per-job choices `process_video` makes before reading frames: the
    internal AI mode, the output format with its extension and writer
    parameters, the output directory, the extraction interval and which
    frames it selects. */
module Options {
  import opened Common
  import opened Text
  import opened Paths
  import opened Jobs

  /** The UI's AI mode label mapped to the service's mode name. */
  function AiModeInternal(aiModeUi: Value): (mode: string)
    ensures mode == "skip_frame" <==> aiModeUi == Str("Skip Frame")
    ensures mode == "generate_mask" <==> aiModeUi == Str("Generate Mask")
    ensures mode == "none" <==> aiModeUi != Str("Skip Frame") && aiModeUi != Str("Generate Mask")
  {
    if aiModeUi == Str("Skip Frame") then "skip_frame"
    else if aiModeUi == Str("Generate Mask") then "generate_mask"
    else "none"
  }

  /** Whether a job needs the AI service at all (`ai_mode` other than 'None'). */
  predicate NeedsAi(job: Job)
  {
    Get(job.settings, "ai_mode", Str("None")) != Str("None")
  }

  /** The OpenCV writer parameters for each format. */
  datatype SaveParams = JpegQuality(quality: Value) | PngCompression(level: int) | TiffCompression(scheme: int)

  /** `fmt = output_format.lower()`, replaced by 'jpg' unless it is one of
      the three supported formats. */
  function ResolveFormat(outputFormat: string): (fmt: string)
    ensures fmt in ["jpg", "png", "tiff"]
    ensures Lower(outputFormat) in ["jpg", "png", "tiff"] ==> fmt == Lower(outputFormat)
    ensures Lower(outputFormat) !in ["jpg", "png", "tiff"] ==> fmt == "jpg"
  {
    var fmt := Lower(outputFormat);
    if fmt !in ["jpg", "png", "tiff"] then "jpg" else fmt
  }

  /** The file extension: "." + fmt, except ".tif" for TIFF. */
  function Extension(fmt: string): string
  {
    if fmt == "tiff" then ".tif" else "." + fmt
  }

  function Params(fmt: string, quality: Value): SaveParams
  {
    if fmt == "jpg" then JpegQuality(quality)
    else if fmt == "png" then PngCompression(3)
    else TiffCompression(1)
  }

  /** Any case of the three names selects that format; every other name
      falls back to JPEG. The extension and writer parameters follow the
      format. */
  lemma FormatChoice(outputFormat: string, quality: Value)
    ensures var fmt := ResolveFormat(outputFormat);
      (fmt == "jpg" ==> Extension(fmt) == ".jpg" && Params(fmt, quality) == JpegQuality(quality)) &&
      (fmt == "png" ==> Extension(fmt) == ".png" && Params(fmt, quality) == PngCompression(3)) &&
      (fmt == "tiff" ==> Extension(fmt) == ".tif" && Params(fmt, quality) == TiffCompression(1))
    ensures ResolveFormat("PNG") == "png" && ResolveFormat("Tiff") == "tiff" && ResolveFormat("webp") == "jpg"
  {
    assert Lower("PNG") == "png";
    assert Lower("Tiff") == "tiff";
    assert Lower("webp") == "webp";
  }

  /** The output folder: `<base>/<stem>_processed`, where base is the custom
      directory when it is set and exists, the video's folder otherwise. */
  function OutputDir(filePath: string, customDir: string, customIsDir: bool): string
  {
    var base := if customDir != "" && customIsDir then customDir else Dirname(filePath);
    PathJoin(base, Stem(Basename(filePath)) + "_processed")
  }

  lemma OutputDirChoice(filePath: string, customDir: string, customIsDir: bool)
    ensures EndsWith(OutputDir(filePath, customDir, customIsDir), Stem(Basename(filePath)) + "_processed")
    ensures customDir != "" && customIsDir ==>
      OutputDir(filePath, customDir, customIsDir) == PathJoin(customDir, Stem(Basename(filePath)) + "_processed")
    ensures customDir == "" || !customIsDir ==>
      OutputDir(filePath, customDir, customIsDir) == PathJoin(Dirname(filePath), Stem(Basename(filePath)) + "_processed")
  {
  }

  /** Python's `max(1, x)`: the integer 1 unless x is larger. */
  function MaxOne(x: real): real
  {
    if x > 1.0 then x else 1.0
  }

  /** The extraction interval in frames: `int(max(1, v))` when the unit is
      frames, `int(max(1, fps * v))` for seconds. */
  function Interval(unitIsFrames: bool, value: real, fps: real): (interval: nat)
    ensures interval >= 1
  {
    var raw := if unitIsFrames then MaxOne(value) else MaxOne(fps * value);
    Trunc(raw)
  }

  /** The interval is the whole part of the requested count (never rounded
      up), and 1 when the request is below one frame. */
  lemma IntervalTruncates(unitIsFrames: bool, value: real, fps: real)
    ensures var x := if unitIsFrames then value else fps * value;
      (x <= 1.0 ==> Interval(unitIsFrames, value, fps) == 1) &&
      (x > 1.0 ==> Interval(unitIsFrames, value, fps) as real <= x < Interval(unitIsFrames, value, fps) as real + 1.0)
  {
  }

  /** Two seconds of 29.97 fps video is 59 frames, not 60. */
  lemma IntervalExample()
    ensures Interval(false, 2.0, 29.97) == 59
    ensures Interval(true, 0.5, 30.0) == 1
  {
    assert 29.97 * 2.0 == 59.94;
    assert (59.94).Floor == 59;
  }

  /** A frame is considered when its index is a multiple of the interval. */
  predicate Selected(frameIdx: nat, interval: nat)
    requires interval >= 1
  {
    frameIdx % interval == 0
  }

  /** Frame 0 is always considered, and then every interval-th frame. */
  lemma SelectedFrames(frameIdx: nat, interval: nat)
    requires interval >= 1
    ensures Selected(0, interval)
    ensures Selected(frameIdx, interval) <==> Selected(frameIdx + interval, interval)
    ensures Selected(frameIdx, interval) ==> forall j :: frameIdx < j < frameIdx + interval ==> !Selected(j, interval)
  {
    var q, r := frameIdx / interval, frameIdx % interval;
    ModAdd(q + 1, r, interval);
    assert frameIdx + interval == (q + 1) * interval + r;
    if r == 0 {
      forall j | frameIdx < j < frameIdx + interval
        ensures !Selected(j, interval)
      {
        ModAdd(q, j - frameIdx, interval);
      }
    }
  }

  lemma MulLe(a: int, b: int, m: int)
    requires a <= b && m > 0
    ensures a * m <= b * m
  {
  }

  /** The remainder of q*m + r is r. */
  lemma ModAdd(q: int, r: int, m: int)
    requires m > 0 && 0 <= r < m
    ensures (q * m + r) % m == r
  {
    var x := q * m + r;
    var q', r' := x / m, x % m;
    assert x == q' * m + r';
    if q' < q {
      MulLe(q' + 1, q, m);
    } else if q' > q {
      MulLe(q + 1, q', m);
    }
  }
}
