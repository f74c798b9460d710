# 360Extractor core, modelled in Dafny

360Extractor turns 360° equirectangular videos into sets of flat
(rectilinear) pictures for photogrammetry. A worker goes through a queue
of jobs. For each video it:

- chooses an output folder, an image format and a naming convention;
- lays out a rig of virtual cameras (ring, cube or Fibonacci sphere);
- builds one reprojection map per active camera;
- reads the video frame by frame and keeps every interval-th frame;
- drops frames that moved too little since the last kept one (the motion gate);
- for each camera, reprojects the frame and drops blurry views (the blur
  gate, standard or smart);
- optionally sharpens the view and runs a person detector on it, which
  either drops the view or produces a mask;
- saves the picture, tags it with the GPS position of the frame, and saves
  the mask if there is one.

The GPS track comes from one of four places: a GPX sidecar, a GoPro (GPMF)
data stream, an Insta360 camera-motion (CAMM) data stream or a DJI
subtitle stream. The CAMM stream is decoded by the project's own
byte-level parser.

The model has one module per source file, plus three helper modules:

- `Common`: Option/Result, bytes, GPS samples, Python's `int()` of a float.
- `Text`: `str()`, `{:06d}`, `in`, `str.replace`, and `str.lower` on ASCII
  letters.
- `Paths`: `os.path.basename`, `dirname`, `splitext` and `join`.

The modules for the source files are:

- `Jobs` (src/core/job.py): the job record, its accessors and `summary()`.
- `Geometry` (src/core/geometry.py): `generate_views` as a method with
  loops, proved equal to a specification function; the rotation matrix and
  the reprojection maps as functions.
- `Camm` (src/utils/camm_parser.py): `parse_camm_data` as a method with the
  record loop and the resynchronisation scan, proved equal to a recursive
  specification of the records it keeps.
- `Telemetry` (src/core/telemetry.py): the `TelemetryHandler` class with its
  two fields and its `extract_metadata` / `_extract_*` methods;
  `get_gps_at_time` (bisection and interpolation); the Exif GPS tag block
  (GPS Attribute Information, section 4.6.6 of Exif 2.3).
- `Options`, `Gates`, `Naming` (src/core/processor.py): the choices
  `process_video` makes per job; the blur gate and the motion gate;
  `generate_filename` and the three naming conventions.
- `Processor` (src/core/processor.py): the `Worker` class (fields `jobs`,
  `isRunning`, the AI service, and an event log standing for everything the
  worker does outside itself) with `run`, `process_video` and the frame and
  view loops as methods. Each method is proved equal to a specification
  function (`RunLog`, `JobOutcome`, `FramesFrom`, `FrameStep`, `ViewsFrom`,
  `ViewStep`, `KeptView`). Lemmas then state what a run writes and
  signals.

The parts the code takes from the outside world are parameters:

- `Geometry.Numerics`: trigonometry, square root and float32 rounding.
- `Telemetry.Sources`: ffprobe, ffmpeg, the file system, and the GPX, GPMF
  and SRT parsers.
- `Processor.Env`: the video decoder, the blur and motion scores and the
  person detector.
- The IEEE-754 decoding of CAMM payloads is a function parameter.

Pictures are symbolic. `Frame(video, i)` is frame i of a video,
`Remapped(...)` is its reprojection into one camera with that camera's
maps, and `Sharpened(...)` is a sharpened picture. Lemmas can therefore say
exactly which frame and which camera a saved file comes from.

## Model

| member | source | states |
|---|---|---|
| Common.Trunc | src/core/processor.py:126-128 | Python's `int()` of a float truncates toward zero: the result is within 1 of x, below it for x ≥ 0 and above it for x < 0 |
| Text.Pad6 | src/core/processor.py:309 | `f"{n:06d}"` is all digits, six long unless n needs more, and denotes n |
| Text.Pad6Injective | src/core/processor.py:319 | different frame numbers give different padded strings |
| Text.NatToStringRoundTrip | src/core/geometry.py:30-32 | the decimal digits of `str(i)` in a view name read back as i |
| Text.Replace | src/core/processor.py:70 | `str.replace` leaves a string that does not contain the pattern unchanged |
| Text.ReplaceSkipsPrefix | src/core/processor.py:70 | a prefix that cannot start the pattern passes through `replace` untouched |
| Paths.Basename | src/core/job.py:15-17 | `os.path.basename` is a slash-free suffix of the path, and the whole path when it has no slash |
| Paths.Dirname | src/core/processor.py:84 | `os.path.dirname` is a prefix of the path, and empty for a bare file name |
| Paths.SplitExt | src/core/processor.py:76 | `os.path.splitext` splits the path into stem + extension, the extension being empty or a dot with no further dot or slash |
| Paths.PathJoin | src/core/processor.py:87 | `os.path.join(a, b)` ends with b |
| Jobs.Get | src/core/job.py:11-29 | `settings.get(key, default)` is the stored value when the key is present and the default otherwise |
| Jobs.PitchLabel | src/core/job.py:34-37 | the pitch label: "High" for a pitch equal to -20, "Low" for 20, "Std" otherwise; stated by `Jobs.PitchLabelCases` |
| Jobs.Summary | src/core/job.py:31-42 | `summary()`: "<label> (<pitch>°), <count> cams" with " (Ring)" for the ring mode; stated by `Jobs.SummaryShape`, `Jobs.DefaultSummary` and `Jobs.HighSummary` |
| Jobs.NewJob | src/core/job.py:5-9 | a new job keeps its path and settings and starts "Pending" |
| Jobs.AccessorDefaults | src/core/job.py:11-29 | active_cameras, output_format, output_dir and smart_blur return the setting, or None, 'jpg', '' and False |
| Jobs.FilenameIsLastComponent | src/core/job.py:15-17 | `filename` of "dir/name" is name |
| Jobs.PitchLabelCases | src/core/job.py:34-37 | the pitch label is "High" iff pitch == -20, "Low" iff pitch == 20, "Std" otherwise |
| Jobs.SummaryShape | src/core/job.py:31-42 | the summary starts with the pitch label and ends with " (Ring)" iff layout_mode is 'ring' |
| Jobs.DefaultSummary | src/core/job.py:31-42 | a job without settings summarises as "Std (0°), 6 cams" |
| Jobs.HighSummary | src/core/job.py:31-42 | pitch -20 with 8 cameras summarises as "High (-20°), 8 cams" |
| Geometry.Wrap360 | src/core/geometry.py:74 | `x % 360.0` lies in [0, 360), differs from x by a whole number of turns, and is x itself inside [0, 360) |
| Geometry.LayoutOf | src/core/geometry.py:28-49 | the branch `generate_views` takes: ring, cube or spiral; stated by `Geometry.RingSelection` |
| Geometry.ExpectedViews | src/core/geometry.py:11-81 | the views `generate_views` returns for each layout, and the spiral's division by zero for n == 0; stated by `Geometry.ViewCount`, `Geometry.RingLayout`, `Geometry.CubeLayout`, `Geometry.FibonacciLayout` and `Geometry.NamesDistinct` |
| Geometry.GenerateViews | src/core/geometry.py:11-81 | the list built by the append loops equals the layout specification `ExpectedViews` for every n, offset and mode |
| Geometry.SpiralViews | src/core/geometry.py:49-79 | the spiral loop yields view i = the i-th golden-section point, for each i < n |
| Geometry.SpiralStep | src/core/geometry.py:55-79 | one spiral iteration computes the height, azimuth, pitch and wrapped yaw of point i |
| Geometry.ViewCount | src/core/geometry.py:28-79 | for every n ≥ 1 and every mode the list has exactly n views; the only failure is the spiral with n == 0 (division by zero) |
| Geometry.RingSelection | src/core/geometry.py:28-34 | the ring is chosen iff mode is 'ring' or 'adaptive' with n < 6; the cube iff not the ring and n == 6 |
| Geometry.RingLayout | src/core/geometry.py:28-32 | ring view i is ("View_i", i·360/n, pitch_offset, 0), yaws in [0, 360) and strictly increasing |
| Geometry.CubeLayout | src/core/geometry.py:34-47 | any non-ring mode with six cameras gives Front/Right/Back/Left at yaw 0/90/180/270 tilted by the offset, then Up (+90) and Down (-90) ignoring it |
| Geometry.CubeModeFallsThrough | src/core/geometry.py:34-79 | 'cube' with n ≠ 6 is the spiral: n views, view i the i-th spiral point |
| Geometry.FibYInside | src/core/geometry.py:52-57 | spiral heights 1 - (i + 0.5)·2/n lie strictly inside (-1, 1) and decrease with i |
| Geometry.FibonacciLayout | src/core/geometry.py:49-79 | spiral view i is named "View_i", has roll 0 and yaw in [0, 360), and its pitch is asin(y_i) in degrees plus the offset, with y_i inside (-1, 1) |
| Geometry.NamesDistinct | src/core/geometry.py:28-79 | no two views of a layout share a name |
| Geometry.RotationOrder | src/core/geometry.py:101-123 | the rotation is Ry·Rx·Rz: a ray is rolled, then pitched, then yawed |
| Geometry.RotationMatrix | src/core/geometry.py:84-123 | the rotation of a view as the product Ry(yaw)·Rx(pitch)·Rz(roll); stated by `Geometry.RotationOrder`, `Geometry.RotationIdentityAtZero` and `Geometry.RotationKeepsNorm` |
| Geometry.RotationIdentityAtZero | src/core/geometry.py:84-123 | with cos 0 = 1 and sin 0 = 0, the rotation at (0, 0, 0) is the identity |
| Geometry.RotationKeepsNorm | src/core/geometry.py:101-123 | when sin² + cos² = 1 the rotation preserves vector length |
| Geometry.MapsFor | src/core/geometry.py:143-196 | each of the two maps is a dest_h × dest_w grid whose entry (r, c) is the float32 source coordinate of destination pixel (r, c) |
| Geometry.RectilinearMap | src/core/geometry.py:126-196 | `create_rectilinear_map` returns two dest_h × dest_w grids, built with the view's rotation matrix |
| Geometry.RotatedRayAtLeastUnit | src/core/geometry.py:153-180 | every rotated camera ray has length ≥ 1, so the latitude's division by r never divides by zero |
| Camm.U16 | src/utils/camm_parser.py:32 | a little-endian 16-bit field is below 65536 |
| Camm.PayloadSize | src/utils/camm_parser.py:42-59 | the payload size is known (non-negative) exactly for the types 0, 1, 2, 3 and 6, and at most 20 bytes |
| Camm.Plausible | src/utils/camm_parser.py:69 | the fix filter: lat in [-90, 90], lon in [-180, 180], and not within 0.0001 of (0, 0) in both; stated by `Camm.FixesPlausible` and `Camm.GpsRecord` |
| Camm.Fixes | src/utils/camm_parser.py:25-102 | the fixes the record loop keeps from an offset on, in stream order; stated by `Camm.ParseCammData`, `Camm.FixesStep`, `Camm.FixesPlausible`, `Camm.FixesSize` and `Camm.FixesReadsSuffix` |
| Camm.ResyncFrom | src/utils/camm_parser.py:84-99 | the scan resumes at or after its start and before the last four bytes |
| Camm.ResyncFromFirst | src/utils/camm_parser.py:84-102 | the scan stops at the first position with reserved 0 and a type in {1, 2, 3, 6}, and finds none only when no such position lies before length - 4 |
| Camm.NextOffset | src/utils/camm_parser.py:36-102 | every record that does not end the parse moves the offset strictly forward and not past the end, so the loop terminates |
| Camm.FixesStep | src/utils/camm_parser.py:25-102 | one record contributes its kept fix and parsing continues at the next offset; an unknown type contributes nothing; a short record ends the parse |
| Camm.ParseCammData | src/utils/camm_parser.py:7-121 | the record loop returns the fixes the record specification keeps, in stream order, with their timestamps |
| Camm.KeepRecord | src/utils/camm_parser.py:65-76 | a complete record yields a fix only when it is type 6 and the decoded fix is plausible |
| Camm.ScanForHeader | src/utils/camm_parser.py:84-102 | the scan loop finds a header exactly when the scan specification does, and at the same position |
| Camm.AssignTimestamps | src/utils/camm_parser.py:104-118 | the timestamp loop stamps sample i with (i/N)·duration for a positive duration and i·0.2 otherwise |
| Camm.Stamp | src/utils/camm_parser.py:104-118 | stamping keeps the count, order and coordinates of the fixes |
| Camm.FixesPlausible | src/utils/camm_parser.py:65-74 | every kept fix has lat in [-90, 90], lon in [-180, 180] and is not at the (0, 0) island |
| Camm.FixesSize | src/utils/camm_parser.py:43-78 | each fix consumes a whole 24-byte record, so L bytes yield at most L / 24 fixes |
| Camm.FixesReadsSuffix | src/utils/camm_parser.py:25-102 | the parser never reads behind its offset: streams that agree from offset + 1 on give the same fixes |
| Camm.ReservedIgnored | src/utils/camm_parser.py:32-90 | the reserved field of a record with a known type is never checked: overwriting it changes nothing |
| Camm.GpsRecord | src/utils/camm_parser.py:44-78 | a single GPS record yields its fix exactly when the fix is plausible |
| Camm.TruncatedRecord | src/utils/camm_parser.py:61-63 | a GPS record cut short is dropped and parsing stops |
| Camm.ResyncExample | src/utils/camm_parser.py:79-102 | after an unknown type, parsing resumes at the next header with reserved 0 and a known type |
| Camm.UnknownTypeWithoutResync | src/utils/camm_parser.py:79-102 | an unknown type with no acceptable header (reserved 0 and a type in {1, 2, 3, 6}) at any later position before the last four bytes ends the parse |
| Camm.TimestampBounds | src/utils/camm_parser.py:109-111 | with a positive duration, sample i's time is in [0, duration), 0 for the first, and increasing |
| Camm.StampTimes | src/utils/camm_parser.py:107-118 | with a positive duration the times start at 0, stay below the duration and increase; without one they are 0.2 s apart |
| Telemetry.Times | src/core/telemetry.py:210 | the times list has one entry per sample, each sample's timestamp |
| Telemetry.Bisect | src/core/telemetry.py:213 | `bisect_left` stays within [lo, hi] |
| Telemetry.BisectFindsSplit | src/core/telemetry.py:213 | when the elements below x are exactly those before k, the search returns k |
| Telemetry.BisectLeftIsSplit | src/core/telemetry.py:213 | on sorted times, `bisect_left` returns the number of times below x |
| Telemetry.BisectBracket | src/core/telemetry.py:213 | whatever the order of the list, the element before the result is below x and the one at it is not |
| Telemetry.GpsAt | src/core/telemetry.py:202-236 | `get_gps_at_time`: none without GPS or samples, the first or last sample outside the track, interpolation between the two samples around t inside; stated by the `Telemetry.GpsAt*` lemmas and `Telemetry.BracketIsStrict` |
| Telemetry.TelemetryHandler.GetGpsAtTime | src/core/telemetry.py:202-236 | the handler's query answers `GpsAt` of its own track, and gives a position iff has_gps is set and there are samples |
| Telemetry.GpsAtDefined | src/core/telemetry.py:207-208 | there is a position iff has_gps is set and the track is non-empty |
| Telemetry.GpsAtBeforeFirst | src/core/telemetry.py:213-216 | on a sorted track, t ≤ the first time returns the first sample exactly |
| Telemetry.GpsAtAfterLast | src/core/telemetry.py:217-218 | on a sorted track, t after the last time returns the last sample exactly |
| Telemetry.GpsAtInside | src/core/telemetry.py:220-236 | strictly inside a sorted track, each coordinate is p1 + (p2 - p1)·(t - t1)/(t2 - t1) for the samples around t |
| Telemetry.GpsAtBetween | src/core/telemetry.py:227-236 | an interpolated coordinate lies between those of the two samples around t |
| Telemetry.GpsAtSampleTime | src/core/telemetry.py:213-236 | at the time of a sample that follows a strictly earlier one, that sample is returned exactly |
| Telemetry.BracketIsStrict | src/core/telemetry.py:221-225 | the two samples around t always have different times, so the equal-times branch is never taken |
| Telemetry.InterpolateBetween | src/core/telemetry.py:232-234 | moving a fraction in [0, 1] of the way keeps lat, lon and alt between the endpoints |
| Telemetry.ToRational | src/core/telemetry.py:250-251 | `to_rational` has denominator 10^6 |
| Telemetry.ToRationalBounds | src/core/telemetry.py:250-251 | the rational is the value truncated to millionths: within 10^-6, from below for x ≥ 0, exact for integers |
| Telemetry.DegMinSecParts | src/core/telemetry.py:253-258 | degrees are the whole part of |v|, minutes are whole and < 60, seconds are in [0, 60), and d + m/60 + s/3600 = |v| |
| Telemetry.ToDegMinSec | src/core/telemetry.py:253-258 | `to_deg_min_sec`: degrees, whole minutes and seconds of |v|, each as a rational in millionths; stated by `Telemetry.DegMinSecParts` and `Telemetry.ToRationalBounds` |
| Telemetry.BuildGpsIfd | src/core/telemetry.py:260-270 | the GPS tag block of a position; stated by `Telemetry.GpsIfdRecoversCoordinates` |
| Telemetry.GpsIfdRecoversCoordinates | src/core/telemetry.py:260-270 | the reference is N iff lat ≥ 0 and E iff lon ≥ 0, altitude ref is 0; the sign and the DMS parts give back the signed angle |
| Telemetry.ExifWriter | src/core/telemetry.py:275-282 | the tags are inserted in place iff the lower-cased extension is .jpg or .jpeg; otherwise the image is re-saved |
| Telemetry.FirstTelemetryFrom | src/core/telemetry.py:62-78 | the chosen data stream is the first gpmd/camm data stream, and there is none when none exists |
| Telemetry.FirstSubtitleFrom | src/core/telemetry.py:80-82 | the subtitle index is that of the first subtitle stream, and there is none when no subtitle stream exists |
| Telemetry.GpxSamples | src/core/telemetry.py:184-200 | the sidecar counts only when it reads and is non-empty |
| Telemetry.ExtractOutcome | src/core/telemetry.py:22-99 | what `extract_metadata` returns and leaves: the GPX sidecar first, then the first gpmd/camm data stream, then the first subtitle stream; stated by `Telemetry.SidecarFirst`, `Telemetry.DataStreamBeforeSubtitles` and `Telemetry.OutcomeConsistent` |
| Telemetry.TelemetryHandler.constructor | src/core/telemetry.py:17-20 | a new handler has GPS off and no samples |
| Telemetry.TelemetryHandler.ExtractMetadata | src/core/telemetry.py:22-99 | the stream loop returns and leaves exactly the outcome of the source-priority specification |
| Telemetry.TelemetryHandler.ExtractGpxData | src/core/telemetry.py:184-200 | succeeds iff the sidecar yields samples; then they replace the track, otherwise nothing changes |
| Telemetry.TelemetryHandler.ExtractCammData | src/core/telemetry.py:101-127 | the decoded CAMM samples replace the track, and GPS is on when there is at least one; a failed dump changes nothing |
| Telemetry.TelemetryHandler.ExtractGpmfData | src/core/telemetry.py:129-153 | the parsed GPMF samples replace the track; GPS is not touched |
| Telemetry.TelemetryHandler.ExtractSrtData | src/core/telemetry.py:155-182 | the parsed subtitle samples replace the track, and GPS is on when there is at least one |
| Telemetry.SidecarFirst | src/core/telemetry.py:27-39 | a GPX sidecar that yields samples wins, whatever the video holds |
| Telemetry.DataStreamBeforeSubtitles | src/core/telemetry.py:62-92 | without a usable sidecar, any gpmd/camm data stream makes the call succeed with GPS on (even if nothing decodes), from the first such stream, and subtitles are not tried |
| Telemetry.OutcomeConsistent | src/core/telemetry.py:22-99 | success always comes with GPS on; a failure leaves GPS as it was |
| Telemetry.FreshFailureHasNoPositions | src/core/telemetry.py:22-208 | on a fresh handler a failed extraction leaves no GPS, so every position query answers None |
| Telemetry.CammStreamSamples | src/core/telemetry.py:54-120 | a CAMM stream yields the decoded fixes timed over the container duration |
| Options.AiModeInternal | src/core/processor.py:137-143 | 'Skip Frame' maps to skip_frame, 'Generate Mask' to generate_mask, everything else to none |
| Options.ResolveFormat | src/core/processor.py:96-98 | the format is the lower-cased setting when it is jpg, png or tiff, and jpg otherwise |
| Options.Extension | src/core/processor.py:100-102 | the file extension: ".<fmt>", and ".tif" for tiff; stated by `Options.FormatChoice` |
| Options.Params | src/core/processor.py:104-111 | the writer parameters: the quality for jpg, compression 3 for png, 1 for tiff; stated by `Options.FormatChoice` |
| Options.FormatChoice | src/core/processor.py:95-111 | jpg → ".jpg" with the quality setting, png → ".png" with compression 3, tiff → ".tif" with compression 1; "PNG" and "Tiff" are accepted, "webp" becomes jpg |
| Options.OutputDirChoice | src/core/processor.py:78-87 | the output folder is "<stem>_processed" under the custom directory when it is set and exists, under the video's folder otherwise |
| Options.OutputDir | src/core/processor.py:78-87 | the output folder "<stem>_processed" under the custom or the video's folder; stated by `Options.OutputDirChoice` |
| Options.Interval | src/core/processor.py:121-128 | the interval is at least 1 |
| Options.IntervalTruncates | src/core/processor.py:122-128 | the interval is the whole part of the requested count of frames (frames, or fps·seconds), and 1 below one frame |
| Options.IntervalExample | src/core/processor.py:125-128 | 2 s at 29.97 fps is 59 frames (not 60); 0.5 frames is 1 |
| Options.SelectedFrames | src/core/processor.py:199 | frame 0 is selected, selection repeats every interval frames, and no frame in between is selected |
| Options.Selected | src/core/processor.py:199 | a frame is selected when its index is a multiple of the interval; stated by `Options.SelectedFrames` |
| Gates.Push | src/core/processor.py:271 | appending to the 10-slot deque keeps every score while below 10 and drops the oldest once full |
| Gates.PushKeepsLatest | src/core/processor.py:152 | the deque never exceeds 10, ends with the newest score and is the latest part of everything appended |
| Gates.BlurCheck | src/core/processor.py:244-280 | the blur-gate code keeps the view and updates history, counter and skip count exactly as the gate specification `BlurStep` |
| Gates.BlurStep | src/core/processor.py:244-280 | the blur gate as a function of its state and the score; stated by `Gates.StandardGate`, `Gates.SmartGate`, `Gates.ForcedAcceptance`, `Gates.BlurStepValid` and `Gates.RejectionRunBounded` |
| Gates.StandardGate | src/core/processor.py:272-280 | standard mode keeps a view iff score ≥ threshold, leaves history and counter alone, and counts each rejection |
| Gates.SmartGate | src/core/processor.py:249-271 | smart mode rejects iff the view is below the floor, or below 0.6 × the history mean, and is not the 6th in a row; a rejection counts; a kept view resets the counter and enters the history |
| Gates.ForcedAcceptance | src/core/processor.py:260-266 | after five rejections in a row a blurry view is forced through, resets the counter and enters the history |
| Gates.BlurStepValid | src/core/processor.py:261-271 | the gate keeps the history at ≤ 10 scores and the counter at ≤ 5 |
| Gates.RejectionRunBounded | src/core/processor.py:261-266 | in smart mode no run of rejections is longer than five |
| Gates.SixInARowImpossible | src/core/processor.py:261-266 | from the initial state six views in a row are never all rejected |
| Gates.MotionGateCases | src/core/processor.py:225-234 | a frame is skipped iff adaptive, a reference exists and motion ≤ threshold; a skip keeps the reference; otherwise in adaptive mode the frame becomes the reference |
| Gates.MotionGate | src/core/processor.py:225-234 | the motion gate: whether a selected frame is skipped and the next reference; stated by `Gates.MotionGateCases` |
| Naming.Token | src/core/processor.py:70 | the placeholder for a key is "{" + key + "}" |
| Naming.GenerateFilename | src/core/processor.py:63-71 | the replace loop substitutes each key's value, key by key in context order, as the substitution specification does |
| Naming.Substitute | src/core/processor.py:63-71 | the substitution specification: each key's placeholder replaced by its value, key by key; stated by `Naming.GenerateFilename`, `Naming.SubstituteNoPlaceholder` and `Naming.SubstituteSplit` |
| Naming.SubstituteNoPlaceholder | src/core/processor.py:63-71 | a pattern containing none of the placeholders comes back unchanged |
| Naming.SubstituteSplit | src/core/processor.py:68-70 | substituting a context in two parts is substituting the first, then the second |
| Naming.RealityScanAndSimple | src/core/processor.py:317-327 | both conventions name the image "<stem>_frame<idx:06d>_<camera><ext>"; RealityScan's mask is "<image>.mask.png", simple's "<stem>_frame<idx>_<camera>_mask.png" |
| Naming.Names | src/core/processor.py:301-348 | the image and mask names of the three conventions, empty for an unknown one; stated by `Naming.RealityScanAndSimple`, `Naming.CustomSuffixes`, `Naming.ImageNameBinding` and `Naming.FrameNumbersKeepNamesApart` |
| Naming.FrameNumbersKeepNamesApart | src/core/processor.py:309-319 | views of different frames get different image names |
| Naming.CustomSuffixes | src/core/processor.py:336-348 | a custom pattern without "{ext}" gets the format extension (image) or ".png" (mask) appended |
| Naming.ImageNameBinding | src/core/processor.py:341-348 | "{image_name}" in a mask pattern stands for the full image name: "{image_name}<suffix>" names the mask "<image><suffix>.png" |
| Processor.NumberOf | src/core/processor.py:132-161 | a numeric setting reads iff it is an int, a float or a bool |
| Processor.ViewsOf | src/core/processor.py:133-173 | `generate_views` on the camera count as the setting holds it: an int or bool count gives the layout of that integer; a float count gives the cube when it is 6.0 outside the forced ring, fails with "float division by zero" when it is 0.0 in the spiral, and fails in `range` otherwise; any other kind fails |
| Processor.FloatCameraCount | src/core/geometry.py:28-34 | a float camera count gives views iff it is 6.0 and the mode is not 'ring', and those are the views of the integer 6 |
| Processor.BuildMaps | src/core/processor.py:181-189 | the map loop builds exactly the maps of the specification: one per active view, keyed by name |
| Processor.MapsCoverActiveViews | src/core/processor.py:181-238 | a view name has a map iff some active view carries it, and with distinct names each active view's map is its own |
| Processor.Prepare | src/core/processor.py:95-189 | the set-up code yields the context of the specification `ReadContext` (format, video, interval, telemetry, views, maps, filters, naming), or the same error |
| Processor.ReadContext | src/core/processor.py:95-189 | what `process_video` settles before the first frame, or the error it raises; stated by `Processor.Prepare` and `Processor.JobWrites` |
| Processor.JobOutcome | src/core/processor.py:73-364 | what `process_video` writes and raises; stated by `Processor.Worker.ProcessVideo`, `Processor.JobWrites` and `Processor.JobSignals` |
| Processor.FramesFrom | src/core/processor.py:191-359 | the frame loop from a frame on; stated by `Processor.Worker.FrameLoop` and `Processor.FramesFromContinues` |
| Processor.FrameStep | src/core/processor.py:199-234 | one frame read; stated by `Processor.Worker.ProcessFrame`, `Processor.UnselectedFrameIgnored`, `Processor.MotionSkipWritesNothing` and `Processor.FrameStepContinues` |
| Processor.ViewStep | src/core/processor.py:236-280 | one view of a frame; stated by `Processor.Worker.ProcessView`, `Processor.InactiveViewSkipped`, `Processor.BlurryViewWritesNothing` and `Processor.ViewStepContinues` |
| Processor.KeptView | src/core/processor.py:282-357 | a view past the blur gate; stated by `Processor.Worker.KeepView`, `Processor.PersonViewSkipped`, `Processor.MaskWritten` and `Processor.KeptViewContinues` |
| Processor.RunLog | src/core/processor.py:45-61 | what `run` does; stated by `Processor.Worker.Run` and `Processor.RunSignals` |
| Processor.RunFromStep | src/core/processor.py:48-59 | one job of `run`: start signal, processing, then finish or error signal, then the rest of the queue |
| Processor.Worker.constructor | src/core/processor.py:26-40 | a new worker is running, has an empty log, and holds an AI service iff some job's ai_mode is not 'None' |
| Processor.Worker.Stop | src/core/processor.py:42-43 | stop clears the running flag and changes nothing else |
| Processor.Worker.Run | src/core/processor.py:45-61 | the job loop produces exactly the run specification `RunLog` and leaves the other fields alone |
| Processor.Worker.RunJob | src/core/processor.py:48-59 | one pass of the job loop advances the run specification by one job |
| Processor.Worker.ProcessVideo | src/core/processor.py:73-364 | `process_video` creates the output folder, then does what `JobOutcome` says, and reports the same error |
| Processor.Worker.FrameLoop | src/core/processor.py:191-359 | the frame loop, while running, does what the frame specification `FramesFrom` does from frame 0 |
| Processor.Worker.ProcessFrame | src/core/processor.py:199-234 | one frame read does what `FrameStep` does: selection, GPS update, motion gate, then the views |
| Processor.Worker.ProcessViews | src/core/processor.py:236 | the view loop goes through the views in generation order as `ViewsFrom` does |
| Processor.Worker.ProcessView | src/core/processor.py:236-280 | one view does what `ViewStep` does: skipped without maps, reprojected, then through the blur gate |
| Processor.Worker.KeepView | src/core/processor.py:282-357 | a kept view is sharpened, may be dropped or masked by the detector, and is written as `KeptView` says |
| Processor.Worker.WriteView | src/core/processor.py:350-357 | a kept view writes the image, then its GPS tags when a position is known, then its mask when there is one |
| Processor.ViewNames | src/core/processor.py:301-348 | the naming block yields the image and mask names of the naming specification `Names` |
| Processor.UnselectedFrameIgnored | src/core/processor.py:199 | a frame whose index is not a multiple of the interval changes nothing |
| Processor.MotionSkipWritesNothing | src/core/processor.py:225-232 | a selected frame that moved too little writes nothing and keeps the reference and the blur state |
| Processor.BlurryViewWritesNothing | src/core/processor.py:277-280 | a view the blur gate rejects writes nothing and adds one to the skip count |
| Processor.InactiveViewSkipped | src/core/processor.py:236-238 | a view without maps (an inactive camera) is skipped untouched |
| Processor.PersonViewSkipped | src/core/processor.py:291-296 | in skip_frame mode a view showing a person is not written |
| Processor.MaskWritten | src/core/processor.py:297-357 | in generate_mask mode a kept view's last write is its person mask under the mask name |
| Processor.WritesShape | src/core/processor.py:350-357 | a kept view's writes start with the image and are followed only by GPS tags and a mask |
| Processor.SaveEventsContinue | src/core/processor.py:350-357 | every write of a view of a selected frame is one that view may make: its reprojected (and, if asked, sharpened) picture saved with the job's parameters under its image name, the frame's track position embedded in that same file, and, in generate_mask mode, the person mask of that picture under its mask name |
| Processor.KeptViewContinues | src/core/processor.py:282-357 | a kept view of a selected frame writes only its own picture, the frame's position into that picture's file, and its own mask |
| Processor.ViewStepContinues | src/core/processor.py:236-357 | one view of a selected frame writes only its own picture, tags and mask, leaves the position alone, and keeps the blur state reachable |
| Processor.ViewsFromContinues | src/core/processor.py:236-357 | the views of a selected frame write only pictures, tags and masks of views of that frame, each under that view's own names and carrying that frame's position |
| Processor.FrameStepContinues | src/core/processor.py:199-357 | one frame writes only pictures, tags and masks of views of selected frames, and holds no position without a track |
| Processor.FramesFromContinues | src/core/processor.py:194-359 | the frame loop writes only reprojections of selected frames into views with maps, under their image names, the tags of those files with the position of their frame, and the person masks of those pictures under their mask names; it keeps the blur state reachable |
| Processor.ContinuesTrans | src/core/processor.py:194-359 | two stretches of the loop that each write only selected views do so together |
| Processor.JobWrites | src/core/processor.py:73-364 | a job first ensures its output folder; if its settings, video and views read, every further write (picture, tags or mask) is one a view of a selected frame may make, and there is none once stopped; otherwise it writes nothing more and raises |
| Processor.JobSignals | src/core/processor.py:53-55 | `process_video` emits no signal, and raises exactly the job's error |
| Processor.TurnSignals | src/core/processor.py:52-59 | a job's turn signals its start and then its closing signal |
| Processor.RunFromSignals | src/core/processor.py:48-61 | from job i on, `run` signals each job's start then its finish or its error, then `finished` |
| Processor.RunSignals | src/core/processor.py:45-61 | `run` signals every job's start followed by its finish or error, in queue order, then `finished`; an error does not stop the queue; a stopped worker only signals `finished` |
| Processor.ReadContextAsWritten | src/core/processor.py:95-131 | against `Job` as written, the set-up always fails: an earlier error on the format, the video or the interval value, else the AttributeError on `job.resolution` |
| Processor.AsWrittenAgreesBeforeResolution | src/core/processor.py:95-131 | up to `job.resolution` the as-written set-up raises the same error as the corrected one; a job the corrected set-up accepts fails on `resolution` |
| Processor.AsWrittenSavesNothing | src/core/processor.py:45-61 | against `Job` as written, `run` saves no picture, GPS tag or mask, for any queue |
| Processor.AsWrittenVsCorrected | src/core/processor.py:73-131 | a job the corrected set-up accepts finishes without error, but raises the AttributeError on `resolution` as written |

## Left out

- Concurrency: `stop()` runs on the UI thread while `run` works. The model
  takes `isRunning` to be fixed during a call to `Run`. So it covers a
  worker stopped before the run, not one stopped between two frames.
- Progress and ETA signals, `time.time()`, logging, `traceback.print_exc`
  and `cap.release()` have no effect on what is written and are not
  modelled. `total_frames_video` is used only for progress and is left out
  with it.
- OpenCV is left out: decoding, `remap`, Gaussian sharpening, the blur and
  motion scores, `imwrite`. Pictures are symbolic terms and scores are
  functions of them. A failed `imwrite` (which returns False and does not
  raise) is not modelled: every save is an event. `cap.read()` is modelled
  as a video that delivers a fixed number of frames.
- The YOLO person detector is two inputs: whether the model loaded, and
  whether a picture shows a person. Its masks are the symbolic
  `PersonMask(image)`. AIService is created iff some job's ai_mode is not
  'None' (src/core/processor.py:33-38); the model file itself is not
  modelled.
- ffprobe, ffmpeg and the GPX, GPMF and SRT parsers are the fields of
  `Telemetry.Sources`. A raised exception or failed process is a `None`.
  `parse_gpx_data`, `GPMFParser` and `parse_srt_data` are not part of this
  model.
- The IEEE-754 decoding of CAMM payloads (`'<ddf'`), numpy's trigonometry,
  square root and float32 rounding are parameters. All arithmetic is on
  exact reals, so rounding of float64 is not modelled.
- Telemetry.TelemetryHandler.ExtractMetadata: every stream carries an
  integer index and string codec type and tag, as ffprobe's JSON does; a
  missing index (which `stream.get('index')` would read as None) is not
  modelled. The exception handlers of `extract_metadata` are modelled only
  as a failed probe (`None`). An exception raised inside the stream loop,
  such as a stream that is not a dictionary or a data stream whose codec
  tag is not a string (caught at src/core/telemetry.py:97-99, returning
  False), is not.
- `embed_exif`: only the tag block it writes (`BuildGpsIfd`) and the choice
  between in-place insertion and re-saving (`ExifWriter`) are modelled. In
  the frame loop, tagging is the event `EmbedGps(path, position)`. Reading
  the existing Exif data, its failure modes and the returned bool are left
  out.
- Processor.Prepare: the settings dictionary holds JSON-like values. A
  numeric setting may be an int, a float or a bool, as in Python; a float
  camera count of 6.0 gives the cube (`Processor.FloatCameraCount`). A
  setting of a kind Python cannot use makes the job fail with a message of
  the model's own. Some such errors Python raises only later, at the first
  use inside the frame loop: a non-numeric blur threshold at the first
  scored view, a bad fov only when a map is built. The model reads every
  setting before the first frame. Its log therefore lacks the writes
  Python makes before such a late error: with adaptive mode on and a
  non-numeric adaptive threshold, Python saves every view of the first
  selected frame and raises only at the comparison on the next selected
  frame (src/core/processor.py:230), while the model fails before any
  write. A job whose bad setting is never used, such as a bad fov with an
  empty `active_cameras` list, fails in the model but completes in
  Python.
- Processor.Prepare: `resolution` is modelled as an integer ≥ 0. A non-string
  `custom_output_dir` is treated as unset. A non-string `layout_mode`
  matches no layout name.
- Processor.Worker.ProcessVideo: error texts are approximations. The model
  keeps "Could not open video: <path>" and "float division by zero"; the
  others are the model's own. `ErrorOccurred(file, reason)` stands for the
  text "Error processing <file>: <reason>".
- The skipped-blur count is kept in the loop state. Its only use, a log
  line, is not modelled.
- `Job.Summary` takes `str()` of a float as a parameter (CPython's
  shortest repr is not modelled). The settings are an immutable map, so
  "accessors do not modify the settings" holds by construction and has no
  lemma.
- Jobs.Job.Resolution, AdaptiveMode, AdaptiveThreshold, ExportTelemetry:
  src/core/job.py defines none of these properties, yet the processor reads
  all four. The model follows tests/test_core.py:212-214, which expect them
  on `Job`, not job.py as written. They are read from the settings with the
  defaults of the settings manager: 2048, False, 0.5, False. As written,
  `out_res = job.resolution` (src/core/processor.py:131) raises
  AttributeError for every job that gets past the format, the video and
  the interval value, so no job reaches the frame loop. That behaviour is
  modelled by `Processor.ReadContextAsWritten` and
  `Processor.RunFromAsWritten` (see "## Findings").
- The UI, the command-line entry point, the settings manager, the file
  manager and the logger are not part of this model.

## Findings

| source | as written | input that shows it | evidently intended | confidence | as-written member | corrected member |
|---|---|---|---|---|---|---|
| src/core/processor.py:131 | `job.resolution` is read, but src/core/job.py defines no `resolution` (nor `adaptive_mode`, `adaptive_threshold`, `export_telemetry`), so it raises AttributeError | any job with a text `output_format`, a video that opens and a numeric `interval_value` | `Job` exposes the four settings, as tests/test_core.py:212-214 expect; the job then reaches the frame loop | not executed | Processor.AsWrittenVsCorrected | Processor.JobWrites |

## Notes on the code

- The cube is selected by the camera count (`n == 6`), not by the mode
  'cube' (src/core/geometry.py:34). 'cube' with twelve cameras gives twelve
  spiral views (`Geometry.CubeModeFallsThrough`). A test in
  tests/test_core.py:33-44 expects six; the model follows the code.
- The smart blur override accepts the sixth consecutive blurry view
  (`consecutive_blur_skips > 5`, src/core/processor.py:263), so at most five
  are rejected in a row (`Gates.RejectionRunBounded`).
- The interval in seconds is truncated by `int()`: 2 s at 29.97 fps is 59
  frames (`Options.IntervalExample`).
- `FileManager.ensure_directory` catches `OSError` itself
  (src/utils/file_manager.py), so the `IOError` branch at
  src/core/processor.py:89-93 cannot be reached. A folder that cannot be
  created does not stop the job; the model records `EnsureDir` and goes on.
- In `get_gps_at_time`, the branch for equal bracketing times
  (src/core/telemetry.py:224-225) is never taken, whatever the order of the
  samples. `bisect_left` always returns an index whose left neighbour is
  below t and whose own time is not (`Telemetry.BracketIsStrict`). Two
  samples with the same time are interpolated between the earlier neighbour
  and the first of them.
- The reserved field of a CAMM record is ignored for known types. After an
  unknown type, the scan starts one byte into the header. So the reserved
  field's high byte can then be read as the low byte of a candidate
  reserved field (`Camm.ReservedIgnored` states the first part).
