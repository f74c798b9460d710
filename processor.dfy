/** The extraction worker: for each queued job it resolves the output
    folder, format and settings, reads the video frame by frame, keeps every
    interval-th frame that moved enough, reprojects it into each active
    camera view, passes each view through the blur gate, sharpening and the
    person detector, and writes the survivors under the chosen naming
    convention, tagged with the GPS position of the frame when telemetry is
    exported. Image operations are symbolic: an `Image` records how a picture
    was derived, and the outside world (video decoder, scores, detector,
    telemetry sources) is the `Env` record. What the worker does to the file
    system and what it signals to the UI is the event log. */
module Processor {
  import opened Common
  import opened Text
  import opened Paths
  import opened Jobs
  import Geometry
  import Telemetry
  import Options
  import Gates
  import Naming

  /** The extraction interval, in frames; never zero. */
  type Interval = x: nat | x >= 1 witness 1

  /** A picture as the pipeline derives it: frame `index` of a video, its
      reprojection into one camera view with that view's lookup maps, or a
      sharpened picture. */
  datatype Image =
    | Frame(video: string, index: nat)
    | Remapped(source: Image, camera: string, maps: Geometry.PixelMaps)
    | Sharpened(source: Image, strength: real)

  /** The segmentation model's mask of a picture: black over people, white
      elsewhere. */
  datatype Mask = PersonMask(image: Image)

  /** What the worker does outside itself: file-system writes and the Qt
      signals `job_started`, `job_finished`, `error_occurred` and
      `finished`. `EmbedGps` is a call of `embed_exif`, which writes the tag
      block `Telemetry.BuildGpsIfd` of the position in the way
      `Telemetry.ExifWriter` chooses for the path. `ErrorOccurred(f, e)` is
      the text "Error processing <f>: <e>". */
  datatype Event =
    | EnsureDir(path: string)
    | SaveImage(path: string, image: Image, params: Options.SaveParams)
    | EmbedGps(path: string, position: Telemetry.Position)
    | SaveMask(path: string, mask: Mask)
    | JobStarted(index: nat)
    | JobFinished(index: nat)
    | ErrorOccurred(file: string, reason: string)
    | Finished
  {
    /** An effect on the file system rather than a signal. */
    predicate IsFile()
    {
      EnsureDir? || SaveImage? || EmbedGps? || SaveMask?
    }
  }

  /** What OpenCV reports about an opened video: frame rate, frame size and
      the number of frames `read()` delivers before it fails. */
  datatype Video = Video(fps: real, width: int, height: int, frames: nat)

  /** The world the worker runs in. `capture` is None when the video cannot
      be opened; `parseFloat` is Python's `float()` on a string. */
  datatype Env = Env(
    isDir: string -> bool,
    parseFloat: string -> Option<real>,
    capture: string -> Option<Video>,
    num: Geometry.Numerics,
    blurScore: Image -> real,
    motionScore: (Image, Image) -> real,
    modelLoaded: bool,
    personIn: Image -> bool,
    telemetry: Telemetry.Sources)

  // ---------------------------------------------------------------------
  // Reading the settings

  /** A numeric setting; Python's bool is the integer 0 or 1. */
  function NumberOf(key: string, v: Value): (r: Result<real>)
    ensures r.Ok? <==> v.Int? || v.Float? || v.Bool?
  {
    match v
    case Int(i) => Ok(i as real)
    case Float(x) => Ok(x)
    case Bool(b) => Ok(if b then 1.0 else 0.0)
    case _ => Fail("setting " + key + " is not a number")
  }

  /** `float(value)`: numbers convert, strings are parsed. */
  function FloatOf(key: string, v: Value, parseFloat: string -> Option<real>): Result<real>
  {
    match v
    case Str(s) => if parseFloat(s).Some? then Ok(parseFloat(s).value) else Fail("could not convert string to float: '" + s + "'")
    case _ => NumberOf(key, v)
  }

  /** `generate_views` called with the camera count as the setting holds
      it; Python's bool is the integer 0 or 1. A float count passes the
      comparisons, so 6.0 selects the cube, but `range` refuses it in the
      ring and in the spiral (after the spiral's `2.0 / n`). A count of any
      other kind fails a comparison, `range` or the division. */
  function ViewsOf(count: Value, pitchOffset: real, layoutMode: string, num: Geometry.Numerics)
    : Result<seq<Geometry.View>>
  {
    match count
    case Int(n) => Geometry.ExpectedViews(n, pitchOffset, layoutMode, num)
    case Bool(b) => Geometry.ExpectedViews(if b then 1 else 0, pitchOffset, layoutMode, num)
    case Float(x) =>
      if layoutMode == "ring" || (layoutMode == "adaptive" && x < 6.0) then Fail(NotAnInteger)
      else if x == 6.0 then Ok(Geometry.CubeViews(pitchOffset))
      else if x == 0.0 then Fail("float division by zero")
      else Fail(NotAnInteger)
    case _ => Fail("setting camera_count is not a number")
  }

  const NotAnInteger := "'float' object cannot be interpreted as an integer"

  /** A float camera count gives views exactly when it is 6.0 outside the
      forced ring, and then the views of the integer 6; a count that is not
      a number gives none. */
  lemma FloatCameraCount(x: real, pitchOffset: real, layoutMode: string, num: Geometry.Numerics)
    ensures ViewsOf(Float(x), pitchOffset, layoutMode, num).Ok? <==> x == 6.0 && layoutMode != "ring"
    ensures ViewsOf(Float(x), pitchOffset, layoutMode, num).Ok? ==>
      ViewsOf(Float(x), pitchOffset, layoutMode, num) == Geometry.ExpectedViews(6, pitchOffset, layoutMode, num)
  {
  }

  function TextOf(key: string, v: Value): Result<string>
  {
    if v.Str? then Ok(v.s) else Fail("setting " + key + " is not a string")
  }

  /** `active_cameras`: None selects every view, a list the views at its
      indices; anything else cannot be searched with `in`. */
  function ActiveOf(v: Value): Result<Option<seq<int>>>
  {
    match v
    case Null => Ok(None)
    case IntList(xs) => Ok(Some(xs))
    case _ => Fail("active_cameras is not a list")
  }

  function ResolutionOf(v: Value): Result<nat>
  {
    if v.Int? && v.i >= 0 then Ok(v.i) else Fail("resolution is not a size")
  }

  /** `layout_mode` as the comparisons in `generate_views` see it: a value
      that is not a string equals none of the names. */
  function LayoutText(v: Value): string
  {
    if v.Str? then v.s else ""
  }

  function NamingOf(v: Value): Naming.NamingMode
  {
    if v == Str("realityscan") then Naming.RealityScan
    else if v == Str("simple") then Naming.Simple
    else if v == Str("custom") then Naming.Custom
    else Naming.Unnamed
  }

  function OpenVideo(env: Env, path: string): Result<Video>
  {
    if env.capture(path).Some? then Ok(env.capture(path).value) else Fail("Could not open video: " + path)
  }

  /** The job's output folder: the custom directory when it is a non-empty
      string naming an existing directory, the video's folder otherwise. */
  function OutputDirOf(job: Job, env: Env): string
  {
    var custom := if job.OutputDir().Str? then job.OutputDir().s else "";
    Options.OutputDir(job.filePath, custom, env.isDir(custom))
  }

  // ---------------------------------------------------------------------
  // The per-job context

  /** How saved views are named and written. */
  datatype Output = Output(dir: string, stem: string, ext: string, params: Options.SaveParams,
                           naming: Naming.NamingMode, imagePattern: string, maskPattern: string)

  /** The gates and image steps a job asks for. A threshold or strength
      whose step is off is not read and holds 0. */
  datatype Filters = Filters(blurEnabled: bool, smartBlur: bool, blurThreshold: real,
                             sharpen: Option<real>, adaptive: bool, motionThreshold: real,
                             aiMode: string)

  /** Source frame size, output resolution and field of view of the maps. */
  datatype Lens = Lens(srcH: int, srcW: int, res: nat, fov: real)

  /** Everything the frame loop reads. `aiActive` is whether the worker
      holds an AI service; `track` is the telemetry handler's state when the
      job exports telemetry. */
  datatype Ctx = Ctx(videoPath: string, fps: real, frames: nat, interval: Interval,
                     views: seq<Geometry.View>, maps: map<string, Geometry.PixelMaps>,
                     out: Output, filters: Filters, aiActive: bool,
                     track: Option<Telemetry.Track>)

  /** Whether view `i` is among the active cameras. */
  predicate Active(active: Option<seq<int>>, i: nat)
  {
    active.None? || i as int in active.value
  }

  function MapFor(num: Geometry.Numerics, lens: Lens, v: Geometry.View): Geometry.PixelMaps
  {
    Geometry.RectilinearMap(num, lens.srcH, lens.srcW, lens.res, lens.res, lens.fov, v.yaw, v.pitch, v.roll)
  }

  /** `create_rectilinear_map(src_h, src_w, out_res, out_res, fov, y, p, r)`
      as a function of the view. */
  function MapMaker(num: Geometry.Numerics, lens: Lens): Geometry.View -> Geometry.PixelMaps
  {
    v => MapFor(num, lens, v)
  }

  /** The `maps` dictionary after the first k views: a map for each active
      one, keyed by its name. */
  function MapsUpTo(views: seq<Geometry.View>, active: Option<seq<int>>, mapOf: Geometry.View -> Geometry.PixelMaps, k: nat)
    : map<string, Geometry.PixelMaps>
    requires k <= |views|
  {
    if k == 0 then map[]
    else
      var m := MapsUpTo(views, active, mapOf, k - 1);
      if Active(active, k - 1) then m[views[k - 1].name := mapOf(views[k - 1])] else m
  }

  /** The map-building loop of `process_video`. */
  method BuildMaps(views: seq<Geometry.View>, active: Option<seq<int>>, mapOf: Geometry.View -> Geometry.PixelMaps)
    returns (maps: map<string, Geometry.PixelMaps>)
    ensures maps == MapsUpTo(views, active, mapOf, |views|)
  {
    maps := map[];
    for i := 0 to |views|
      invariant maps == MapsUpTo(views, active, mapOf, i)
    {
      if active.Some? && i as int !in active.value {
        continue;
      }
      var v := views[i];
      maps := maps[v.name := mapOf(v)];
    }
  }

  /** A view has a map exactly when some active view carries its name, and
      with distinct names each active view's map is its own. */
  lemma {:induction false} MapsCoverActiveViews(views: seq<Geometry.View>, active: Option<seq<int>>,
                                                mapOf: Geometry.View -> Geometry.PixelMaps, k: nat)
    requires k <= |views|
    ensures forall name :: name in MapsUpTo(views, active, mapOf, k) <==>
      exists i :: 0 <= i < k && Active(active, i) && views[i].name == name
    ensures (forall i, j :: 0 <= i < j < |views| ==> views[i].name != views[j].name) ==>
      forall i :: 0 <= i < k && Active(active, i) ==>
        MapsUpTo(views, active, mapOf, k)[views[i].name] == mapOf(views[i])
  {
    if k > 0 {
      MapsCoverActiveViews(views, active, mapOf, k - 1);
    }
  }

  function ReadFilters(job: Job): Result<Filters>
  {
    var s := job.settings;
    var blurEnabled := Truthy(Get(s, "blur_filter_enabled", Bool(false)));
    var threshold :- if blurEnabled then NumberOf("blur_threshold", Get(s, "blur_threshold", Float(100.0))) else Ok(0.0);
    var strength :- if Truthy(Get(s, "sharpening_enabled", Bool(false)))
                    then NumberOf("sharpening_strength", Get(s, "sharpening_strength", Float(0.5))) else Ok(0.0);
    var adaptive := Truthy(job.AdaptiveMode());
    var motion :- if adaptive then NumberOf("adaptive_threshold", job.AdaptiveThreshold()) else Ok(0.0);
    Ok(Filters(blurEnabled, Truthy(job.SmartBlur()), threshold,
               if Truthy(Get(s, "sharpening_enabled", Bool(false))) then Some(strength) else None,
               adaptive, motion, Options.AiModeInternal(Get(s, "ai_mode", Str("None")))))
  }

  const DefaultImagePattern := "{filename}_frame{frame}_{camera}"

  const DefaultMaskPattern := "{filename}_frame{frame}_{camera}_mask"

  function ReadOutput(job: Job, outDir: string, fmt: string): Result<Output>
  {
    var s := job.settings;
    var naming := NamingOf(Get(s, "naming_mode", Str("realityscan")));
    var ip :- if naming == Naming.Custom then TextOf("image_pattern", Get(s, "image_pattern", Str(DefaultImagePattern))) else Ok("");
    var mp :- if naming == Naming.Custom then TextOf("mask_pattern", Get(s, "mask_pattern", Str(DefaultMaskPattern))) else Ok("");
    Ok(Output(outDir, Stem(Basename(job.filePath)), Options.Extension(fmt),
              Options.Params(fmt, Get(s, "quality", Int(95))), naming, ip, mp))
  }

  /** The telemetry track a job reads, when it exports telemetry: a fresh
      handler after `extract_metadata`. */
  function TrackOf(job: Job, env: Env): Option<Telemetry.Track>
  {
    if Truthy(job.ExportTelemetry())
    then Some(Telemetry.ExtractOutcome(job.filePath, env.telemetry, Telemetry.Track(false, [])).track)
    else None
  }

  /** What `process_video` settles before the first frame, or the exception
      it raises on the way. */
  function ReadContext(job: Job, env: Env, aiActive: bool, outDir: string): Result<Ctx>
  {
    var s := job.settings;
    var fmtText :- TextOf("output_format", job.OutputFormat());
    var fmt := Options.ResolveFormat(fmtText);
    var video :- OpenVideo(env, job.filePath);
    var value :- FloatOf("interval_value", Get(s, "interval_value", Float(1.0)), env.parseFloat);
    var interval := Options.Interval(Get(s, "interval_unit", Str("Seconds")) == Str("Frames"), value, video.fps);
    var count := Get(s, "camera_count", Int(6));
    var pitch :- NumberOf("pitch_offset", Get(s, "pitch_offset", Int(0)));
    var views :- ViewsOf(count, pitch, LayoutText(Get(s, "layout_mode", Str("adaptive"))), env.num);
    var active :- ActiveOf(job.ActiveCameras());
    var res :- ResolutionOf(job.Resolution());
    var fov :- NumberOf("fov", Get(s, "fov", Int(90)));
    var maps := MapsUpTo(views, active, MapMaker(env.num, Lens(video.height, video.width, res, fov)), |views|);
    var filters :- ReadFilters(job);
    var out :- ReadOutput(job, outDir, fmt);
    Ok(Ctx(job.filePath, video.fps, video.frames, interval, views, maps, out, filters, aiActive, TrackOf(job, env)))
  }

  /** The set-up part of `process_video`, computing the views and the maps
      and extracting the telemetry with a handler of its own. */
  method Prepare(job: Job, env: Env, aiActive: bool, outDir: string) returns (r: Result<Ctx>)
    ensures r == ReadContext(job, env, aiActive, outDir)
  {
    var s := job.settings;
    var fmtText :- TextOf("output_format", job.OutputFormat());
    var fmt := Options.ResolveFormat(fmtText);
    var video :- OpenVideo(env, job.filePath);
    var value :- FloatOf("interval_value", Get(s, "interval_value", Float(1.0)), env.parseFloat);
    var interval := Options.Interval(Get(s, "interval_unit", Str("Seconds")) == Str("Frames"), value, video.fps);
    var track: Option<Telemetry.Track> := None;
    if Truthy(job.ExportTelemetry()) {
      var handler := new Telemetry.TelemetryHandler();
      var found := handler.ExtractMetadata(job.filePath, env.telemetry);
      track := Some(handler.State());
    }
    var count := Get(s, "camera_count", Int(6));
    var pitch :- NumberOf("pitch_offset", Get(s, "pitch_offset", Int(0)));
    var layout := LayoutText(Get(s, "layout_mode", Str("adaptive")));
    var views: seq<Geometry.View>;
    if count.Int? || count.Bool? {
      views :- Geometry.GenerateViews(if count.Int? then count.i else if count.b then 1 else 0, pitch, layout, env.num);
    } else {
      views :- ViewsOf(count, pitch, layout, env.num);
    }
    var active :- ActiveOf(job.ActiveCameras());
    var res :- ResolutionOf(job.Resolution());
    var fov :- NumberOf("fov", Get(s, "fov", Int(90)));
    var maps := BuildMaps(views, active, MapMaker(env.num, Lens(video.height, video.width, res, fov)));
    var filters :- ReadFilters(job);
    var out :- ReadOutput(job, outDir, fmt);
    r := Ok(Ctx(job.filePath, video.fps, video.frames, interval, views, maps, out, filters, aiActive, track));
  }

  // ---------------------------------------------------------------------
  // The frame loop, as a specification

  /** The loop's state: the blur gate's state, the motion reference, the
      current GPS position and everything done so far. */
  datatype Loop = Loop(blur: Gates.BlurState, reference: Option<Image>,
                       gps: Option<Telemetry.Position>, log: seq<Event>)

  /** The writes for one kept view: the image, its GPS tags when a position
      is known, and its mask when the model made one. */
  function SaveEvents(out: Output, idx: nat, camera: string, img: Image, mask: Option<Mask>,
                      gps: Option<Telemetry.Position>): seq<Event>
  {
    Writes(out.dir, Naming.Names(out.naming, out.stem, idx, camera, out.ext, out.imagePattern, out.maskPattern),
           out.params, img, mask, gps)
  }

  /** The writes for an image and mask named `names`. */
  function Writes(dir: string, names: (string, string), params: Options.SaveParams, img: Image, mask: Option<Mask>,
                  gps: Option<Telemetry.Position>): seq<Event>
  {
    var path := PathJoin(dir, names.0);
    [SaveImage(path, img, params)]
    + (if gps.Some? then [EmbedGps(path, gps.value)] else [])
    + (if mask.Some? then [SaveMask(PathJoin(dir, names.1), mask.value)] else [])
  }

  /** A view that passed the blur gate: sharpened if asked, then either
      dropped by the person detector or written. */
  function KeptView(cx: Ctx, env: Env, idx: nat, camera: string, rect: Image, st: Loop): Loop
  {
    var img := if cx.filters.sharpen.Some? then Sharpened(rect, cx.filters.sharpen.value) else rect;
    var ai := cx.aiActive && cx.filters.aiMode != "none" && env.modelLoaded;
    if ai && cx.filters.aiMode == "skip_frame" && env.personIn(img) then st
    else
      var mask := if ai && cx.filters.aiMode == "generate_mask" then Some(PersonMask(img)) else None;
      st.(log := st.log + SaveEvents(cx.out, idx, camera, img, mask, st.gps))
  }

  /** One view of frame `idx`: skipped without a map, otherwise reprojected
      and passed through the blur gate. */
  function ViewStep(cx: Ctx, env: Env, idx: nat, camera: string, st: Loop): Loop
  {
    if camera !in cx.maps then st
    else
      var rect := Remapped(Frame(cx.videoPath, idx), camera, cx.maps[camera]);
      if cx.filters.blurEnabled then
        var (keep, blur') := Gates.BlurStep(cx.filters.smartBlur, cx.filters.blurThreshold, st.blur, env.blurScore(rect));
        if keep then KeptView(cx, env, idx, camera, rect, st.(blur := blur')) else st.(blur := blur')
      else KeptView(cx, env, idx, camera, rect, st)
  }

  /** The views from the k-th on, in generation order. */
  function ViewsFrom(cx: Ctx, env: Env, idx: nat, k: nat, st: Loop): Loop
    decreases |cx.views| - k
  {
    if k >= |cx.views| then st
    else ViewsFrom(cx, env, idx, k + 1, ViewStep(cx, env, idx, cx.views[k].name, st))
  }

  /** The seconds into the video of frame `idx`. */
  function FrameTime(fps: real, idx: nat): real
  {
    if fps > 0.0 then idx as real / fps else 0.0
  }

  /** One frame read: nothing unless it is selected; then the GPS position
      is updated, the motion gate may drop it, and otherwise every view is
      processed. */
  function FrameStep(cx: Ctx, env: Env, idx: nat, st: Loop): Loop
  {
    if idx % cx.interval != 0 then st
    else
      var gps := if cx.track.Some? then Telemetry.GpsAt(cx.track.value.hasGps, cx.track.value.samples, FrameTime(cx.fps, idx))
                 else st.gps;
      var (skip, reference) := Gates.MotionGate(cx.filters.adaptive, st.reference, Frame(cx.videoPath, idx),
                                                env.motionScore, cx.filters.motionThreshold);
      if skip then st.(gps := gps)
      else ViewsFrom(cx, env, idx, 0, st.(gps := gps, reference := reference))
  }

  /** The frames from `idx` to the end of the video. */
  function FramesFrom(cx: Ctx, env: Env, idx: nat, st: Loop): Loop
    decreases cx.frames - idx
  {
    if idx >= cx.frames then st
    else FramesFrom(cx, env, idx + 1, FrameStep(cx, env, idx, st))
  }

  /** What `process_video` does to the log, and the exception it raises if
      any. The frames are read only while the worker is running. */
  function JobOutcome(job: Job, env: Env, aiActive: bool, running: bool, log: seq<Event>): (seq<Event>, Option<string>)
  {
    var outDir := OutputDirOf(job, env);
    var started := log + [EnsureDir(outDir)];
    match ReadContext(job, env, aiActive, outDir)
    case Fail(e) => (started, Some(e))
    case Ok(cx) =>
      (if running then FramesFrom(cx, env, 0, Loop(Gates.InitialBlur, None, None, started)).log else started, None)
  }

  /** The signal that closes job i: finished, or the error text `run` emits. */
  function Outcome(i: nat, job: Job, error: Option<string>): Event
  {
    if error.None? then JobFinished(i)
    else ErrorOccurred(Basename(job.filePath), error.value)
  }

  /** `run` from job i on. */
  function RunFrom(jobs: seq<Job>, env: Env, aiActive: bool, running: bool, i: nat, log: seq<Event>): seq<Event>
    decreases |jobs| - i, 1
  {
    if !running || i >= |jobs| then log + [Finished]
    else JobTurn(jobs, env, aiActive, running, i, log + [JobStarted(i)])
  }

  /** Job i's turn after its start signal: processed and closed, then the
      rest of the queue. */
  function JobTurn(jobs: seq<Job>, env: Env, aiActive: bool, running: bool, i: nat, log: seq<Event>): seq<Event>
    requires i < |jobs|
    decreases |jobs| - i, 0
  {
    var (after, error) := JobOutcome(jobs[i], env, aiActive, running, log);
    RunFrom(jobs, env, aiActive, running, i + 1, after + [Outcome(i, jobs[i], error)])
  }

  /** What `run` does to the log. */
  function RunLog(jobs: seq<Job>, env: Env, aiActive: bool, running: bool, log: seq<Event>): seq<Event>
  {
    RunFrom(jobs, env, aiActive, running, 0, log)
  }

  /** Having reached job i with `log`, the rest of the queue completes the
      run that began with `start`. */
  predicate Resumes(jobs: seq<Job>, env: Env, aiActive: bool, running: bool, i: nat, log: seq<Event>, start: seq<Event>)
  {
    RunFrom(jobs, env, aiActive, running, i, log) == RunLog(jobs, env, aiActive, running, start)
  }

  /** One job of `run`, unfolded. */
  lemma RunFromStep(jobs: seq<Job>, env: Env, aiActive: bool, i: nat, log: seq<Event>, error: Option<string>)
    requires i < |jobs|
    requires error == JobOutcome(jobs[i], env, aiActive, true, log + [JobStarted(i)]).1
    ensures var after := JobOutcome(jobs[i], env, aiActive, true, log + [JobStarted(i)]).0;
      RunFrom(jobs, env, aiActive, true, i, log) == RunFrom(jobs, env, aiActive, true, i + 1, after + [Outcome(i, jobs[i], error)])
  {
  }

  // ---------------------------------------------------------------------
  // The worker

  class Worker {
    var jobs: seq<Job>
    var isRunning: bool
    /** Whether an AI service was created (some job asks for AI). */
    var aiService: bool
    var log: seq<Event>

    constructor(jobs: seq<Job>)
      ensures this.jobs == jobs && isRunning && log == []
      ensures aiService <==> exists j :: j in jobs && Options.NeedsAi(j)
    {
      this.jobs := jobs;
      isRunning := true;
      log := [];
      aiService := exists j :: j in jobs && Options.NeedsAi(j);
    }

    /** `stop()`: the loops stop at their next check. */
    method Stop()
      modifies this
      ensures !isRunning && jobs == old(jobs) && aiService == old(aiService) && log == old(log)
    {
      isRunning := false;
    }

    /** `run()`: each job is started, processed and closed by a finished or
        an error signal; an error does not stop the queue. */
    method Run(env: Env)
      modifies this
      ensures log == RunLog(jobs, env, aiService, isRunning, old(log))
      ensures jobs == old(jobs) && isRunning == old(isRunning) && aiService == old(aiService)
    {
      for i := 0 to |jobs|
        invariant jobs == old(jobs) && isRunning == old(isRunning) && aiService == old(aiService)
        invariant Resumes(jobs, env, aiService, isRunning, i, log, old(log))
      {
        if !isRunning {
          break;
        }
        RunJob(i, env);
      }
      log := log + [Finished];
    }

    /** One pass of `run`'s loop: job i is started, processed and closed. */
    method RunJob(i: nat, env: Env)
      requires isRunning && i < |jobs|
      modifies this
      ensures RunFrom(jobs, env, aiService, true, i + 1, log) == RunFrom(jobs, env, aiService, true, i, old(log))
      ensures jobs == old(jobs) && isRunning == old(isRunning) && aiService == old(aiService)
    {
      var job := jobs[i];
      ghost var before := log;
      log := log + [JobStarted(i)];
      var error := ProcessVideo(job, env);
      log := log + [Outcome(i, job, error)];
      RunFromStep(jobs, env, aiService, i, before, error);
    }

    /** `process_video(job)`. */
    method ProcessVideo(job: Job, env: Env) returns (error: Option<string>)
      modifies this
      ensures (log, error) == JobOutcome(job, env, aiService, isRunning, old(log))
      ensures jobs == old(jobs) && isRunning == old(isRunning) && aiService == old(aiService)
    {
      var outDir := OutputDirOf(job, env);
      log := log + [EnsureDir(outDir)];
      var prepared := Prepare(job, env, aiService, outDir);
      if prepared.Fail? {
        return Some(prepared.error);
      }
      FrameLoop(prepared.value, env);
      return None;
    }

    /** The frame loop of `process_video`: frames are read until the video
        ends or the worker is stopped. */
    method FrameLoop(cx: Ctx, env: Env)
      modifies this
      ensures log == if isRunning then FramesFrom(cx, env, 0, Loop(Gates.InitialBlur, None, None, old(log))).log else old(log)
      ensures jobs == old(jobs) && isRunning == old(isRunning) && aiService == old(aiService)
    {
      ghost var start := Loop(Gates.InitialBlur, None, None, log);
      var blur := Gates.InitialBlur;
      var reference: Option<Image> := None;
      var gps: Option<Telemetry.Position> := None;
      var idx := 0;
      while isRunning && idx < cx.frames
        invariant idx <= cx.frames
        invariant jobs == old(jobs) && isRunning == old(isRunning) && aiService == old(aiService)
        invariant !isRunning ==> log == old(log)
        invariant FramesFrom(cx, env, idx, Loop(blur, reference, gps, log)) == FramesFrom(cx, env, 0, start)
        decreases cx.frames - idx
      {
        blur, reference, gps := ProcessFrame(cx, env, idx, blur, reference, gps);
        idx := idx + 1;
      }
    }

    /** One pass of the frame loop for a frame that was read. */
    method ProcessFrame(cx: Ctx, env: Env, idx: nat, blur: Gates.BlurState, reference: Option<Image>,
                        gps: Option<Telemetry.Position>)
      returns (blur': Gates.BlurState, reference': Option<Image>, gps': Option<Telemetry.Position>)
      modifies this
      ensures Loop(blur', reference', gps', log) == FrameStep(cx, env, idx, Loop(blur, reference, gps, old(log)))
      ensures jobs == old(jobs) && isRunning == old(isRunning) && aiService == old(aiService)
    {
      blur', reference', gps' := blur, reference, gps;
      if idx % cx.interval != 0 {
        return;
      }
      var frame := Frame(cx.videoPath, idx);
      if cx.track.Some? {
        gps' := Telemetry.GpsAt(cx.track.value.hasGps, cx.track.value.samples, FrameTime(cx.fps, idx));
      }
      var skip := false;
      if cx.filters.adaptive {
        if reference.Some? {
          var motion := env.motionScore(reference.value, frame);
          if motion <= cx.filters.motionThreshold {
            skip := true;
          }
        }
        if !skip {
          reference' := Some(frame);
        }
      }
      if !skip {
        blur' := ProcessViews(cx, env, idx, blur, reference', gps');
      }
    }

    /** The view loop of a selected frame that passed the motion gate. */
    method ProcessViews(cx: Ctx, env: Env, idx: nat, blur: Gates.BlurState, ghost reference: Option<Image>,
                        gps: Option<Telemetry.Position>)
      returns (blur': Gates.BlurState)
      modifies this
      ensures Loop(blur', reference, gps, log) == ViewsFrom(cx, env, idx, 0, Loop(blur, reference, gps, old(log)))
      ensures jobs == old(jobs) && isRunning == old(isRunning) && aiService == old(aiService)
    {
      blur' := blur;
      for k := 0 to |cx.views|
        invariant jobs == old(jobs) && isRunning == old(isRunning) && aiService == old(aiService)
        invariant ViewsFrom(cx, env, idx, k, Loop(blur', reference, gps, log)) == ViewsFrom(cx, env, idx, 0, Loop(blur, reference, gps, old(log)))
      {
        blur' := ProcessView(cx, env, idx, cx.views[k].name, blur', reference, gps);
      }
    }

    /** The body of the view loop for one camera. */
    method ProcessView(cx: Ctx, env: Env, idx: nat, camera: string, blur: Gates.BlurState,
                       ghost reference: Option<Image>, gps: Option<Telemetry.Position>)
      returns (blur': Gates.BlurState)
      modifies this
      ensures Loop(blur', reference, gps, log) == ViewStep(cx, env, idx, camera, Loop(blur, reference, gps, old(log)))
      ensures jobs == old(jobs) && isRunning == old(isRunning) && aiService == old(aiService)
    {
      blur' := blur;
      if camera !in cx.maps {
        return;
      }
      var rect := Remapped(Frame(cx.videoPath, idx), camera, cx.maps[camera]);
      if cx.filters.blurEnabled {
        var score := env.blurScore(rect);
        var isBlurry;
        isBlurry, blur' := Gates.BlurCheck(cx.filters.smartBlur, cx.filters.blurThreshold, blur, score);
        if isBlurry {
          return;
        }
      }
      KeepView(cx, env, idx, camera, rect, blur', reference, gps);
    }

    /** The rest of the view loop's body for a view the blur gate kept:
        sharpening, the person detector, naming and the writes. */
    method KeepView(cx: Ctx, env: Env, idx: nat, camera: string, rect: Image, ghost blur: Gates.BlurState,
                    ghost reference: Option<Image>, gps: Option<Telemetry.Position>)
      modifies this
      ensures Loop(blur, reference, gps, log) == KeptView(cx, env, idx, camera, rect, Loop(blur, reference, gps, old(log)))
      ensures jobs == old(jobs) && isRunning == old(isRunning) && aiService == old(aiService)
    {
      var img := rect;
      if cx.filters.sharpen.Some? {
        img := Sharpened(rect, cx.filters.sharpen.value);
      }
      var mask: Option<Mask> := None;
      if cx.aiActive && cx.filters.aiMode != "none" && env.modelLoaded {
        if cx.filters.aiMode == "skip_frame" && env.personIn(img) {
          return;
        } else if cx.filters.aiMode == "generate_mask" {
          mask := Some(PersonMask(img));
        }
      }
      var saveName, maskName := ViewNames(cx.out, idx, camera);
      WriteView(cx.out.dir, saveName, maskName, cx.out.params, img, mask, gps);
    }

    /** The writes of a kept view: the image, its GPS tags, its mask. */
    method WriteView(dir: string, saveName: string, maskName: string, params: Options.SaveParams, img: Image,
                     mask: Option<Mask>, gps: Option<Telemetry.Position>)
      modifies this
      ensures log == old(log) + Writes(dir, (saveName, maskName), params, img, mask, gps)
      ensures jobs == old(jobs) && isRunning == old(isRunning) && aiService == old(aiService)
    {
      var path := PathJoin(dir, saveName);
      log := log + [SaveImage(path, img, params)];
      if gps.Some? {
        log := log + [EmbedGps(path, gps.value)];
      }
      if mask.Some? {
        log := log + [SaveMask(PathJoin(dir, maskName), mask.value)];
      }
    }
  }

  /** The naming block of the view loop. */
  method ViewNames(out: Output, idx: nat, camera: string) returns (saveName: string, maskName: string)
    ensures (saveName, maskName) == Naming.Names(out.naming, out.stem, idx, camera, out.ext, out.imagePattern, out.maskPattern)
  {
    saveName, maskName := "", "";
    var frame := Pad6(idx);
    if out.naming == Naming.RealityScan {
      saveName := out.stem + "_frame" + frame + "_" + camera + out.ext;
      maskName := saveName + ".mask.png";
    } else if out.naming == Naming.Simple {
      saveName := out.stem + "_frame" + frame + "_" + camera + out.ext;
      maskName := out.stem + "_frame" + frame + "_" + camera + "_mask.png";
    } else if out.naming == Naming.Custom {
      var ctx := Naming.BaseContext(out.stem, idx, camera, out.ext);
      saveName := Naming.GenerateFilename(out.imagePattern, ctx);
      if !Contains(out.imagePattern, Naming.Token("ext")) {
        saveName := saveName + out.ext;
      }
      ctx := ctx + [("image_name", saveName)];
      maskName := Naming.GenerateFilename(out.maskPattern, ctx);
      if !Contains(out.maskPattern, Naming.Token("ext")) {
        maskName := maskName + ".png";
      }
    }
  }

  // ---------------------------------------------------------------------
  // The gates inside the frame loop

  /** A frame whose index is not a multiple of the interval changes
      nothing, not even the GPS position or the motion reference. */
  lemma UnselectedFrameIgnored(cx: Ctx, env: Env, idx: nat, st: Loop)
    requires idx % cx.interval != 0
    ensures FrameStep(cx, env, idx, st) == st
  {
  }

  /** A selected frame that moved too little since the reference writes
      nothing and keeps the reference and the blur state. */
  lemma MotionSkipWritesNothing(cx: Ctx, env: Env, idx: nat, st: Loop)
    requires idx % cx.interval == 0 && cx.filters.adaptive && st.reference.Some?
    requires env.motionScore(st.reference.value, Frame(cx.videoPath, idx)) <= cx.filters.motionThreshold
    ensures var r := FrameStep(cx, env, idx, st);
      r.log == st.log && r.reference == st.reference && r.blur == st.blur
  {
  }

  /** A view the blur gate rejects writes nothing and is counted. */
  lemma BlurryViewWritesNothing(cx: Ctx, env: Env, idx: nat, camera: string, st: Loop)
    requires camera in cx.maps && cx.filters.blurEnabled
    requires !Gates.BlurStep(cx.filters.smartBlur, cx.filters.blurThreshold, st.blur,
                             env.blurScore(Remapped(Frame(cx.videoPath, idx), camera, cx.maps[camera]))).0
    ensures var r := ViewStep(cx, env, idx, camera, st);
      r.log == st.log && r.blur.skipped == st.blur.skipped + 1
  {
  }

  /** A view without maps (an inactive camera) is skipped untouched. */
  lemma InactiveViewSkipped(cx: Ctx, env: Env, idx: nat, camera: string, st: Loop)
    requires camera !in cx.maps
    ensures ViewStep(cx, env, idx, camera, st) == st
  {
  }

  /** With the detector in "skip_frame" mode, a view showing a person is
      not written. */
  lemma PersonViewSkipped(cx: Ctx, env: Env, idx: nat, camera: string, rect: Image, st: Loop)
    requires cx.aiActive && env.modelLoaded && cx.filters.aiMode == "skip_frame"
    requires env.personIn(if cx.filters.sharpen.Some? then Sharpened(rect, cx.filters.sharpen.value) else rect)
    ensures KeptView(cx, env, idx, camera, rect, st) == st
  {
  }

  /** With the detector in "generate_mask" mode, a kept view is written
      with its mask under the mask name. */
  lemma MaskWritten(cx: Ctx, env: Env, idx: nat, camera: string, rect: Image, st: Loop)
    requires cx.aiActive && env.modelLoaded && cx.filters.aiMode == "generate_mask"
    ensures var img := if cx.filters.sharpen.Some? then Sharpened(rect, cx.filters.sharpen.value) else rect;
      var names := Naming.Names(cx.out.naming, cx.out.stem, idx, camera, cx.out.ext, cx.out.imagePattern, cx.out.maskPattern);
      var w := KeptView(cx, env, idx, camera, rect, st).log;
      |w| > |st.log| && w[|w| - 1] == SaveMask(PathJoin(cx.out.dir, names.1), PersonMask(img))
  {
  }

  // ---------------------------------------------------------------------
  // What a run writes and signals

  /** The picture written for view `camera` of frame `idx`: the frame's
      reprojection with that view's maps, sharpened when the job asks. */
  function ViewImage(cx: Ctx, idx: nat, camera: string): Image
    requires camera in cx.maps
  {
    var rect := Remapped(Frame(cx.videoPath, idx), camera, cx.maps[camera]);
    if cx.filters.sharpen.Some? then Sharpened(rect, cx.filters.sharpen.value) else rect
  }

  /** The position a view of frame `idx` is tagged with: the track's
      position at the frame's time, and none without telemetry export. */
  function FrameGps(cx: Ctx, idx: nat): Option<Telemetry.Position>
  {
    if cx.track.Some? then Telemetry.GpsAt(cx.track.value.hasGps, cx.track.value.samples, FrameTime(cx.fps, idx))
    else None
  }

  /** A write view `camera` of frame `idx` may make: the frame is selected
      and the view has maps; the image is the view's picture saved with the
      job's parameters under its image name; the tags go to that same file
      and carry the frame's position; the mask, made only in
      "generate_mask" mode, is the person mask of the view's picture saved
      under its mask name. */
  predicate ViewWrite(cx: Ctx, idx: nat, camera: string, e: Event)
  {
    idx < cx.frames && idx % cx.interval == 0 && camera in cx.maps &&
    var names := Naming.Names(cx.out.naming, cx.out.stem, idx, camera, cx.out.ext, cx.out.imagePattern, cx.out.maskPattern);
    match e
    case SaveImage(path, img, params) =>
      path == PathJoin(cx.out.dir, names.0) && img == ViewImage(cx, idx, camera) && params == cx.out.params
    case EmbedGps(path, position) =>
      path == PathJoin(cx.out.dir, names.0) && FrameGps(cx, idx) == Some(position)
    case SaveMask(path, mask) =>
      path == PathJoin(cx.out.dir, names.1) && mask == PersonMask(ViewImage(cx, idx, camera)) &&
      cx.aiActive && cx.filters.aiMode == "generate_mask"
    case _ => false
  }

  /** A write of the frame loop: one that some view of some selected frame
      may make. */
  ghost predicate FromSelectedView(cx: Ctx, e: Event)
  {
    (e.SaveImage? || e.EmbedGps? || e.SaveMask?) &&
    exists idx: nat, camera: string :: ViewWrite(cx, idx, camera, e)
  }

  ghost predicate AllFromSelectedViews(cx: Ctx, w: seq<Event>)
  {
    forall k :: 0 <= k < |w| ==> FromSelectedView(cx, w[k])
  }

  /** The loop holds no position unless the job reads a track. */
  predicate GpsFromTrack(cx: Ctx, st: Loop)
  {
    cx.track.None? ==> st.gps.None?
  }

  /** `r` carries on from `st`: its log is st's followed by writes of
      selected views, a reachable blur state stays reachable, and no
      position appears without a track. */
  ghost predicate Continues(cx: Ctx, st: Loop, r: Loop)
  {
    |st.log| <= |r.log| && r.log[..|st.log|] == st.log &&
    AllFromSelectedViews(cx, r.log[|st.log|..]) &&
    (Gates.ValidBlur(st.blur) ==> Gates.ValidBlur(r.blur)) &&
    (GpsFromTrack(cx, st) ==> GpsFromTrack(cx, r))
  }

  lemma ContinuesTrans(cx: Ctx, a: Loop, b: Loop, c: Loop)
    requires Continues(cx, a, b) && Continues(cx, b, c)
    ensures Continues(cx, a, c)
  {
    assert c.log[..|a.log|] == c.log[..|b.log|][..|a.log|];
    var w := c.log[|a.log|..];
    forall k | 0 <= k < |w|
      ensures FromSelectedView(cx, w[k])
    {
      if |a.log| + k < |b.log| {
        assert w[k] == b.log[|a.log|..][k];
      } else {
        assert w[k] == c.log[|b.log|..][|a.log| + k - |b.log|];
      }
    }
  }

  /** The writes of one view: the image first, then only tags and a mask. */
  lemma WritesShape(dir: string, names: (string, string), params: Options.SaveParams, img: Image,
                    mask: Option<Mask>, gps: Option<Telemetry.Position>)
    ensures var w := Writes(dir, names, params, img, mask, gps);
      |w| >= 1 && w[0] == SaveImage(PathJoin(dir, names.0), img, params) &&
      forall k :: 1 <= k < |w| ==> w[k].EmbedGps? || w[k].SaveMask?
  {
  }

  /** A kept view of a selected frame writes its own image, the frame's
      position into that image, and its own mask. */
  lemma KeptViewContinues(cx: Ctx, env: Env, idx: nat, camera: string, rect: Image, st: Loop)
    requires idx < cx.frames && idx % cx.interval == 0 && camera in cx.maps
    requires rect == Remapped(Frame(cx.videoPath, idx), camera, cx.maps[camera])
    requires st.gps == FrameGps(cx, idx)
    ensures Continues(cx, st, KeptView(cx, env, idx, camera, rect, st))
  {
    var img := if cx.filters.sharpen.Some? then Sharpened(rect, cx.filters.sharpen.value) else rect;
    var ai := cx.aiActive && cx.filters.aiMode != "none" && env.modelLoaded;
    if ai && cx.filters.aiMode == "skip_frame" && env.personIn(img) {
      assert st.log[|st.log|..] == [];
    } else {
      var mask := if ai && cx.filters.aiMode == "generate_mask" then Some(PersonMask(img)) else None;
      SaveEventsContinue(cx, idx, camera, mask, st);
    }
  }

  /** The writes of a view of a selected frame are all writes that view may
      make: its picture, its tags, its mask. */
  lemma SaveEventsContinue(cx: Ctx, idx: nat, camera: string, mask: Option<Mask>, st: Loop)
    requires idx < cx.frames && idx % cx.interval == 0 && camera in cx.maps
    requires mask.Some? ==> mask.value == PersonMask(ViewImage(cx, idx, camera)) &&
                            cx.aiActive && cx.filters.aiMode == "generate_mask"
    requires st.gps == FrameGps(cx, idx)
    ensures Continues(cx, st, st.(log := st.log + SaveEvents(cx.out, idx, camera, ViewImage(cx, idx, camera), mask, st.gps)))
  {
    var names := Naming.Names(cx.out.naming, cx.out.stem, idx, camera, cx.out.ext, cx.out.imagePattern, cx.out.maskPattern);
    var img := ViewImage(cx, idx, camera);
    var path := PathJoin(cx.out.dir, names.0);
    var w := Writes(cx.out.dir, names, cx.out.params, img, mask, st.gps);
    var log := st.log + w;
    assert log[..|st.log|] == st.log && log[|st.log|..] == w;
    assert ViewWrite(cx, idx, camera, SaveImage(path, img, cx.out.params));
    if st.gps.Some? {
      assert ViewWrite(cx, idx, camera, EmbedGps(path, st.gps.value));
    }
    if mask.Some? {
      assert ViewWrite(cx, idx, camera, SaveMask(PathJoin(cx.out.dir, names.1), mask.value));
    }
  }

  /** One view of a selected frame writes only what that view may write,
      and leaves the position alone. */
  lemma ViewStepContinues(cx: Ctx, env: Env, idx: nat, camera: string, st: Loop)
    requires idx < cx.frames && idx % cx.interval == 0 && st.gps == FrameGps(cx, idx)
    ensures Continues(cx, st, ViewStep(cx, env, idx, camera, st))
    ensures ViewStep(cx, env, idx, camera, st).gps == st.gps
  {
    if camera !in cx.maps {
      assert st.log[|st.log|..] == [];
    } else {
      var rect := Remapped(Frame(cx.videoPath, idx), camera, cx.maps[camera]);
      if cx.filters.blurEnabled {
        var (keep, blur') := Gates.BlurStep(cx.filters.smartBlur, cx.filters.blurThreshold, st.blur, env.blurScore(rect));
        if Gates.ValidBlur(st.blur) {
          Gates.BlurStepValid(cx.filters.smartBlur, cx.filters.blurThreshold, st.blur, env.blurScore(rect));
        }
        if keep {
          KeptViewContinues(cx, env, idx, camera, rect, st.(blur := blur'));
        } else {
          assert st.log[|st.log|..] == [];
        }
      } else {
        KeptViewContinues(cx, env, idx, camera, rect, st);
      }
    }
  }

  /** The views of a selected frame write only what its views may write. */
  lemma {:induction false} ViewsFromContinues(cx: Ctx, env: Env, idx: nat, k: nat, st: Loop)
    requires idx < cx.frames && idx % cx.interval == 0 && st.gps == FrameGps(cx, idx)
    ensures Continues(cx, st, ViewsFrom(cx, env, idx, k, st))
    decreases |cx.views| - k
  {
    if k < |cx.views| {
      var st' := ViewStep(cx, env, idx, cx.views[k].name, st);
      ViewStepContinues(cx, env, idx, cx.views[k].name, st);
      ViewsFromContinues(cx, env, idx, k + 1, st');
      ContinuesTrans(cx, st, st', ViewsFrom(cx, env, idx, k + 1, st'));
    } else {
      assert st.log[|st.log|..] == [];
    }
  }

  /** One frame writes only what the views of selected frames may write. */
  lemma FrameStepContinues(cx: Ctx, env: Env, idx: nat, st: Loop)
    requires idx < cx.frames && GpsFromTrack(cx, st)
    ensures Continues(cx, st, FrameStep(cx, env, idx, st))
  {
    if idx % cx.interval != 0 {
      assert st.log[|st.log|..] == [];
    } else {
      var gps := if cx.track.Some? then Telemetry.GpsAt(cx.track.value.hasGps, cx.track.value.samples, FrameTime(cx.fps, idx))
                 else st.gps;
      assert gps == FrameGps(cx, idx);
      var (skip, reference) := Gates.MotionGate(cx.filters.adaptive, st.reference, Frame(cx.videoPath, idx),
                                                env.motionScore, cx.filters.motionThreshold);
      if skip {
        assert st.log[|st.log|..] == [];
      } else {
        ViewsFromContinues(cx, env, idx, 0, st.(gps := gps, reference := reference));
      }
    }
  }

  /** The frames from `idx` on write only what the views of selected frames
      may write, and keep the blur state reachable. */
  lemma {:induction false} FramesFromContinues(cx: Ctx, env: Env, idx: nat, st: Loop)
    requires GpsFromTrack(cx, st)
    ensures Continues(cx, st, FramesFrom(cx, env, idx, st))
    decreases cx.frames - idx
  {
    if idx < cx.frames {
      var st' := FrameStep(cx, env, idx, st);
      FrameStepContinues(cx, env, idx, st);
      FramesFromContinues(cx, env, idx + 1, st');
      ContinuesTrans(cx, st, st', FramesFrom(cx, env, idx + 1, st'));
    } else {
      assert st.log[|st.log|..] == [];
    }
  }

  /** The exception `process_video` raises for a job, if any. */
  function JobError(job: Job, env: Env, aiActive: bool): Option<string>
  {
    var r := ReadContext(job, env, aiActive, OutputDirOf(job, env));
    if r.Fail? then Some(r.error) else None
  }

  /** A job first makes sure its output folder exists. If its settings,
      video and views can be read, everything else it does is a write of a
      selected view (nothing once the worker is stopped); otherwise it
      writes nothing more and raises the error. */
  lemma JobWrites(job: Job, env: Env, aiActive: bool, running: bool, log: seq<Event>)
    ensures var (after, error) := JobOutcome(job, env, aiActive, running, log);
      var started := log + [EnsureDir(OutputDirOf(job, env))];
      |started| <= |after| && after[..|started|] == started && error == JobError(job, env, aiActive) &&
      match ReadContext(job, env, aiActive, OutputDirOf(job, env))
      case Fail(e) => after == started
      case Ok(cx) => AllFromSelectedViews(cx, after[|started|..]) && (!running ==> after == started)
  {
    var started := log + [EnsureDir(OutputDirOf(job, env))];
    var r := ReadContext(job, env, aiActive, OutputDirOf(job, env));
    if r.Ok? && running {
      FramesFromContinues(r.value, env, 0, Loop(Gates.InitialBlur, None, None, started));
    } else {
      assert started[..|started|] == started;
    }
  }

  /** The signals of a log, in order: everything but file-system effects. */
  function Signals(log: seq<Event>): seq<Event>
  {
    if log == [] then []
    else Signals(log[..|log| - 1]) + (if log[|log| - 1].IsFile() then [] else [log[|log| - 1]])
  }

  lemma {:induction false} SignalsAppend(a: seq<Event>, b: seq<Event>)
    ensures Signals(a + b) == Signals(a) + Signals(b)
    decreases |b|
  {
    if b == [] {
      assert a + b == a;
    } else {
      var b' := b[..|b| - 1];
      assert (a + b)[..|a + b| - 1] == a + b';
      SignalsAppend(a, b');
    }
  }

  lemma {:induction false} NoSignals(w: seq<Event>)
    requires forall k :: 0 <= k < |w| ==> w[k].IsFile()
    ensures Signals(w) == []
    decreases |w|
  {
    if w != [] {
      NoSignals(w[..|w| - 1]);
    }
  }

  lemma SelectedViewsAreFiles(cx: Ctx, log: seq<Event>, from: nat)
    requires from <= |log| && AllFromSelectedViews(cx, log[from..])
    ensures forall k :: from <= k < |log| ==> log[k].IsFile()
  {
    forall k | from <= k < |log|
      ensures log[k].IsFile()
    {
      assert log[k] == log[from..][k - from];
    }
  }

  /** A log extended by file-system effects only has the same signals. */
  lemma FilesOnlySignals(log: seq<Event>, after: seq<Event>)
    requires |log| <= |after| && after[..|log|] == log
    requires forall k :: |log| <= k < |after| ==> after[k].IsFile()
    ensures Signals(after) == Signals(log)
  {
    var w := after[|log|..];
    assert after == log + w;
    NoSignals(w);
    SignalsAppend(log, w);
  }

  /** What `process_video` adds to the log carries no signal. */
  lemma JobSignals(job: Job, env: Env, aiActive: bool, running: bool, log: seq<Event>)
    ensures Signals(JobOutcome(job, env, aiActive, running, log).0) == Signals(log)
    ensures JobOutcome(job, env, aiActive, running, log).1 == JobError(job, env, aiActive)
  {
    var after := JobOutcome(job, env, aiActive, running, log).0;
    var started := log + [EnsureDir(OutputDirOf(job, env))];
    JobWrites(job, env, aiActive, running, log);
    var r := ReadContext(job, env, aiActive, OutputDirOf(job, env));
    if r.Ok? {
      SelectedViewsAreFiles(r.value, after, |started|);
    }
    StartedThenFiles(log, OutputDirOf(job, env), after);
  }

  lemma StartedThenFiles(log: seq<Event>, dir: string, after: seq<Event>)
    requires |log| + 1 <= |after| && after[..|log| + 1] == log + [EnsureDir(dir)]
    requires forall k :: |log| + 1 <= k < |after| ==> after[k].IsFile()
    ensures Signals(after) == Signals(log)
  {
    assert after[..|log|] == log;
    assert after[|log|] == EnsureDir(dir);
    FilesOnlySignals(log, after);
  }

  /** The signals of job i's turn: its start, then its closing signal. */
  lemma TurnSignals(log: seq<Event>, after: seq<Event>, i: nat, closing: Event)
    requires Signals(after) == Signals(log + [JobStarted(i)]) && !closing.IsFile()
    ensures Signals(after + [closing]) == Signals(log) + [JobStarted(i), closing]
  {
    SignalsAppend(log, [JobStarted(i)]);
    SignalsAppend(after, [closing]);
    SignalsOne(JobStarted(i));
    SignalsOne(closing);
    assert Signals(after + [closing]) == Signals(log) + [JobStarted(i)] + [closing];
  }

  lemma Regroup(a: seq<Event>, t: seq<Event>, b: seq<Event>, f: seq<Event>)
    ensures a + t + b + f == a + (t + b) + f
  {
  }

  lemma SignalsOne(e: Event)
    ensures Signals([e]) == if e.IsFile() then [] else [e]
  {
    assert [e][..0] == [];
  }

  /** The signals `run` emits from job i on, before `finished`: each job's
      start and then its finish or its error. */
  function Announced(jobs: seq<Job>, env: Env, aiActive: bool, i: nat): seq<Event>
    decreases |jobs| - i
  {
    if i >= |jobs| then []
    else [JobStarted(i), Outcome(i, jobs[i], JobError(jobs[i], env, aiActive))] + Announced(jobs, env, aiActive, i + 1)
  }

  lemma {:induction false} RunFromSignals(jobs: seq<Job>, env: Env, aiActive: bool, i: nat, log: seq<Event>)
    ensures Signals(RunFrom(jobs, env, aiActive, true, i, log)) == Signals(log) + Announced(jobs, env, aiActive, i) + [Finished]
    decreases |jobs| - i
  {
    if i >= |jobs| {
      SignalsAppend(log, [Finished]);
    } else {
      var outcome := JobOutcome(jobs[i], env, aiActive, true, log + [JobStarted(i)]);
      JobSignals(jobs[i], env, aiActive, true, log + [JobStarted(i)]);
      var closing := Outcome(i, jobs[i], JobError(jobs[i], env, aiActive));
      RunFromStep(jobs, env, aiActive, i, log, outcome.1);
      TurnSignals(log, outcome.0, i, closing);
      RunFromSignals(jobs, env, aiActive, i + 1, outcome.0 + [closing]);
      assert Announced(jobs, env, aiActive, i) == [JobStarted(i), closing] + Announced(jobs, env, aiActive, i + 1);
      Regroup(Signals(log), [JobStarted(i), closing], Announced(jobs, env, aiActive, i + 1), [Finished]);
    }
  }

  /** `run` signals, in order, every job's start followed by its finish or
      its error, then `finished`: an error does not stop the queue. A
      worker stopped before `run` only signals `finished`. */
  lemma RunSignals(jobs: seq<Job>, env: Env, aiActive: bool, running: bool, log: seq<Event>)
    ensures running ==> Signals(RunLog(jobs, env, aiActive, running, log)) == Signals(log) + Announced(jobs, env, aiActive, 0) + [Finished]
    ensures !running ==> RunLog(jobs, env, aiActive, running, log) == log + [Finished]
  {
    if running {
      RunFromSignals(jobs, env, aiActive, 0, log);
    }
  }

  // ---------------------------------------------------------------------
  // As src/core/job.py is written

  /** The text of the AttributeError `job.resolution` raises: `Job` does not
      define the property. */
  const NoResolution := "'Job' object has no attribute 'resolution'"

  /** The set-up of `process_video` against `Job` as written: the format,
      the video and the interval value are read as in `ReadContext`, then
      `out_res = job.resolution` raises. No job gets a context. */
  function ReadContextAsWritten(job: Job, env: Env, aiActive: bool, outDir: string): (r: Result<Ctx>)
    ensures r.Fail?
  {
    var s := job.settings;
    var fmtText :- TextOf("output_format", job.OutputFormat());
    var video :- OpenVideo(env, job.filePath);
    var value :- FloatOf("interval_value", Get(s, "interval_value", Float(1.0)), env.parseFloat);
    Fail(NoResolution)
  }

  /** Up to the missing property the two set-ups agree: an earlier error is
      the same error, and a job the corrected set-up accepts fails on
      `resolution`. */
  lemma AsWrittenAgreesBeforeResolution(job: Job, env: Env, aiActive: bool, outDir: string)
    ensures ReadContextAsWritten(job, env, aiActive, outDir).error != NoResolution ==>
      ReadContext(job, env, aiActive, outDir) == ReadContextAsWritten(job, env, aiActive, outDir)
    ensures ReadContext(job, env, aiActive, outDir).Ok? ==>
      ReadContextAsWritten(job, env, aiActive, outDir).error == NoResolution
  {
  }

  /** What `process_video` does against `Job` as written: it makes sure of
      the output folder and raises. */
  function JobOutcomeAsWritten(job: Job, env: Env, aiActive: bool, log: seq<Event>): (seq<Event>, Option<string>)
  {
    var outDir := OutputDirOf(job, env);
    (log + [EnsureDir(outDir)], Some(ReadContextAsWritten(job, env, aiActive, outDir).error))
  }

  /** `run` from job i on against `Job` as written. */
  function RunFromAsWritten(jobs: seq<Job>, env: Env, aiActive: bool, running: bool, i: nat, log: seq<Event>): seq<Event>
    decreases |jobs| - i
  {
    if !running || i >= |jobs| then log + [Finished]
    else
      var (after, error) := JobOutcomeAsWritten(jobs[i], env, aiActive, log + [JobStarted(i)]);
      RunFromAsWritten(jobs, env, aiActive, running, i + 1, after + [Outcome(i, jobs[i], error)])
  }

  /** No picture, tag or mask in a log. */
  predicate NoSaves(log: seq<Event>)
  {
    forall k :: 0 <= k < |log| ==> !(log[k].SaveImage? || log[k].EmbedGps? || log[k].SaveMask?)
  }

  /** Against `Job` as written, `run` saves nothing for any queue: every job
      closes with an error before its first frame. */
  lemma {:induction false} AsWrittenSavesNothing(jobs: seq<Job>, env: Env, aiActive: bool, running: bool, i: nat,
                                                 log: seq<Event>)
    requires NoSaves(log)
    ensures NoSaves(RunFromAsWritten(jobs, env, aiActive, running, i, log))
    decreases |jobs| - i
  {
    if running && i < |jobs| {
      var (after, error) := JobOutcomeAsWritten(jobs[i], env, aiActive, log + [JobStarted(i)]);
      var next := after + [Outcome(i, jobs[i], error)];
      assert next == log + [JobStarted(i), EnsureDir(OutputDirOf(jobs[i], env)), Outcome(i, jobs[i], error)];
      assert NoSaves(next);
      AsWrittenSavesNothing(jobs, env, aiActive, running, i + 1, next);
    }
  }

  /** The discrepancy: a job whose settings, video and views read finishes
      with the properties read from the settings, but raises the
      AttributeError against `Job` as written. */
  lemma AsWrittenVsCorrected(job: Job, env: Env, aiActive: bool, log: seq<Event>)
    requires ReadContext(job, env, aiActive, OutputDirOf(job, env)).Ok?
    ensures JobOutcome(job, env, aiActive, true, log).1 == None
    ensures JobOutcomeAsWritten(job, env, aiActive, log).1 == Some(NoResolution)
  {
    AsWrittenAgreesBeforeResolution(job, env, aiActive, OutputDirOf(job, env));
  }
}
