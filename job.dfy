/** The job record of the extraction queue: a source path, a status and a
    settings dictionary, with accessors that fall back to defaults and a
    one-line summary for the queue display. */
module Jobs {
  import opened Common
  import opened Text
  import opened Paths

  /** A value stored in the settings dictionary (JSON-like). */
  datatype Value = Int(i: int) | Float(r: real) | Str(s: string) | Bool(b: bool) | IntList(xs: seq<int>) | Null

  type Settings = map<string, Value>

  /** `settings.get(key, default)`. */
  function Get(settings: Settings, key: string, default: Value): (v: Value)
    ensures key in settings ==> v == settings[key]
    ensures key !in settings ==> v == default
  {
    if key in settings then settings[key] else default
  }

  /** Python truthiness of a setting (`if value:`). */
  predicate Truthy(v: Value)
  {
    match v
    case Int(i) => i != 0
    case Float(r) => r != 0.0
    case Str(s) => s != ""
    case Bool(b) => b
    case IntList(xs) => xs != []
    case Null => false
  }

  /** Python `value == n` for an integer constant `n` (True and False are 1 and 0). */
  predicate NumEquals(v: Value, n: int)
  {
    match v
    case Int(i) => i == n
    case Float(r) => r == n as real
    case Bool(b) => (if b then 1 else 0) == n
    case _ => false
  }

  /** `str(value)`; `floatText` stands for CPython's shortest float repr. */
  function ValueText(v: Value, floatText: real -> string): string
  {
    match v
    case Int(i) => IntToString(i)
    case Float(r) => floatText(r)
    case Str(s) => s
    case Bool(b) => if b then "True" else "False"
    case IntList(xs) => "[" + Join(", ", seq(|xs|, k requires 0 <= k < |xs| => IntToString(xs[k]))) + "]"
    case Null => "None"
  }

  datatype Job = Job(filePath: string, status: string, settings: Settings)
  {
    /** `active_cameras`: a list of view indices, or None for all views. */
    function ActiveCameras(): Value { Get(settings, "active_cameras", Null) }

    /** `filename`: the last component of the source path. */
    function Filename(): string { Basename(filePath) }

    function OutputFormat(): Value { Get(settings, "output_format", Str("jpg")) }

    function OutputDir(): Value { Get(settings, "custom_output_dir", Str("")) }

    function SmartBlur(): Value { Get(settings, "smart_blur_enabled", Bool(false)) }

    // The four accessors below are used by the processor but are not defined
    // in src/core/job.py; they are modelled as lookups with the defaults of
    // SettingsManager.DEFAULT_SETTINGS.
    function Resolution(): Value { Get(settings, "resolution", Int(2048)) }

    function AdaptiveMode(): Value { Get(settings, "adaptive_mode", Bool(false)) }

    function AdaptiveThreshold(): Value { Get(settings, "adaptive_threshold", Float(0.5)) }

    function ExportTelemetry(): Value { Get(settings, "export_telemetry", Bool(false)) }

    /** `summary()`: "{label} ({pitch}°), {cams} cams" plus " (Ring)" for the
        ring layout. */
    function Summary(floatText: real -> string): string
    {
      var pitch := Get(settings, "pitch_offset", Int(0));
      var cams := Get(settings, "camera_count", Int(6));
      var layout := Get(settings, "layout_mode", Str("adaptive"));
      PitchLabel(pitch) + " (" + ValueText(pitch, floatText) + "°), "
        + ValueText(cams, floatText) + " cams" + (if layout == Str("ring") then " (Ring)" else "")
    }
  }

  /** `Job(file_path)` with its settings filled in: a new job is Pending
      and keeps its path and settings. */
  function NewJob(filePath: string, settings: Settings): (j: Job)
    ensures j.status == "Pending" && j.filePath == filePath && j.settings == settings
  {
    Job(filePath, "Pending", settings)
  }

  /** The summary's pitch name: -20 is the high (perch) position, 20 the low one. */
  function PitchLabel(pitch: Value): string
  {
    if NumEquals(pitch, -20) then "High" else if NumEquals(pitch, 20) then "Low" else "Std"
  }

  lemma PitchLabelCases(pitch: Value)
    ensures PitchLabel(pitch) == "High" <==> NumEquals(pitch, -20)
    ensures PitchLabel(pitch) == "Low" <==> NumEquals(pitch, 20)
    ensures PitchLabel(pitch) == "Std" <==> !NumEquals(pitch, -20) && !NumEquals(pitch, 20)
  {
  }

  /** The summary begins with the pitch label and ends in " (Ring)" exactly
      for the ring layout. */
  lemma SummaryShape(j: Job, floatText: real -> string)
    ensures StartsWith(j.Summary(floatText), PitchLabel(Get(j.settings, "pitch_offset", Int(0))))
    ensures EndsWith(j.Summary(floatText), " (Ring)") <==> Get(j.settings, "layout_mode", Str("adaptive")) == Str("ring")
  {
    var s := j.Summary(floatText);
    var layout := Get(j.settings, "layout_mode", Str("adaptive"));
    var head := PitchLabel(Get(j.settings, "pitch_offset", Int(0)));
    var body := head + " (" + ValueText(Get(j.settings, "pitch_offset", Int(0)), floatText) + "°), "
      + ValueText(Get(j.settings, "camera_count", Int(6)), floatText) + " cams";
    assert s[..|head|] == head;
    if layout != Str("ring") {
      assert s == body;
      assert s[|s| - 1] == 's';
    } else {
      assert s == body + " (Ring)";
      assert s[|s| - |" (Ring)"|..] == " (Ring)";
    }
  }

  /** A job created without settings summarises the defaults. */
  lemma DefaultSummary(path: string, floatText: real -> string)
    ensures NewJob(path, map[]).Summary(floatText) == "Std (0°), 6 cams"
  {
  }

  /** The summary of a job with pitch -20 and eight cameras names the high
      position and the camera count. */
  lemma HighSummary(floatText: real -> string)
    ensures NewJob("/test.mp4", map["pitch_offset" := Int(-20), "camera_count" := Int(8)]).Summary(floatText)
      == "High (-20°), 8 cams"
  {
  }

  /** Every accessor returns the stored setting when present and its default otherwise. */
  lemma AccessorDefaults(j: Job)
    ensures j.ActiveCameras() == (if "active_cameras" in j.settings then j.settings["active_cameras"] else Null)
    ensures j.OutputFormat() == (if "output_format" in j.settings then j.settings["output_format"] else Str("jpg"))
    ensures j.OutputDir() == (if "custom_output_dir" in j.settings then j.settings["custom_output_dir"] else Str(""))
    ensures j.SmartBlur() == (if "smart_blur_enabled" in j.settings then j.settings["smart_blur_enabled"] else Bool(false))
  {
  }

  lemma FilenameIsLastComponent(dir: string, name: string)
    requires '/' !in name
    ensures Job(dir + "/" + name, "Pending", map[]).Filename() == name
  {
    var p := dir + "/" + name;
    var k := LastIndexOf(p, '/');
    assert p[|dir|] == '/';
    assert forall j :: |dir| < j < |p| ==> p[j] == name[j - |dir| - 1];
    assert p[k + 1..] == name;
  }
}
