/** How a saved view and its mask are named: the RealityScan and simple
    conventions, and custom patterns whose `{key}` placeholders
    `generate_filename` substitutes from a context. */
module Naming {
  import opened Text

  /** `f"{{{key}}}"`: the placeholder for a context key. */
  function Token(key: string): (t: string)
    ensures |t| == |key| + 2 && t[0] == '{'
  {
    "{" + key + "}"
  }

  /** The context dictionary, in insertion order. */
  type Context = seq<(string, string)>

  /** `generate_filename(pattern, context)`: each key's placeholder replaced
      by its value, key by key in context order. */
  function Substitute(pattern: string, context: Context): string
    decreases |context|
  {
    if context == [] then pattern
    else Substitute(Replace(pattern, Token(context[0].0), context[0].1), context[1..])
  }

  /** `generate_filename`, reassigning `result` once per key. */
  method GenerateFilename(pattern: string, context: Context) returns (result: string)
    ensures result == Substitute(pattern, context)
  {
    result := pattern;
    for i := 0 to |context|
      invariant Substitute(result, context[i..]) == Substitute(pattern, context)
    {
      var (key, value) := context[i];
      assert context[i..][1..] == context[i + 1..];
      result := Replace(result, Token(key), value);
    }
  }

  /** A pattern holding none of the placeholders comes back unchanged. */
  lemma {:induction false} SubstituteNoPlaceholder(pattern: string, context: Context)
    requires forall j :: 0 <= j < |context| ==> !Contains(pattern, Token(context[j].0))
    ensures Substitute(pattern, context) == pattern
    decreases |context|
  {
    if context != [] {
      assert Replace(pattern, Token(context[0].0), context[0].1) == pattern;
      SubstituteNoPlaceholder(pattern, context[1..]);
    }
  }

  /** A string in which no occurrence of p's first character starts p does
      not contain p. */
  lemma {:induction false} NotContained(s: string, p: string)
    requires |p| > 0
    requires forall i :: 0 <= i < |s| && s[i] == p[0] ==> !StartsWith(s[i..], p)
    ensures !Contains(s, p)
    decreases |s|
  {
    if s != [] {
      forall i | 0 <= i < |s[1..]| && s[1..][i] == p[0]
        ensures !StartsWith(s[1..][i..], p)
      {
        assert s[1..][i..] == s[i + 1..];
      }
      NotContained(s[1..], p);
      if |p| <= |s| && s[0] == p[0] {
        assert s[0..] == s;
      }
    }
  }

  lemma NoBraceNoToken(s: string, key: string)
    requires '{' !in s
    ensures !Contains(s, Token(key))
  {
    NotContained(s, Token(key));
  }

  /** The naming convention a job asks for; any other value of
      `naming_mode` leaves both names empty. */
  datatype NamingMode = RealityScan | Simple | Custom | Unnamed

  /** The context for frame `frameIdx` of camera `camera`. */
  function BaseContext(stem: string, frameIdx: nat, camera: string, ext: string): Context
  {
    [("filename", stem), ("frame", Pad6(frameIdx)), ("camera", camera), ("ext", ext)]
  }

  /** `{stem}_frame{idx:06d}_{camera}`. */
  function FrameStem(stem: string, frameIdx: nat, camera: string): string
  {
    stem + "_frame" + Pad6(frameIdx) + "_" + camera
  }

  /** The image name and the mask name of one saved view. */
  function Names(mode: NamingMode, stem: string, frameIdx: nat, camera: string, ext: string,
                 imagePattern: string, maskPattern: string): (string, string)
  {
    match mode
    case RealityScan =>
      var image := FrameStem(stem, frameIdx, camera) + ext;
      (image, image + ".mask.png")
    case Simple =>
      (FrameStem(stem, frameIdx, camera) + ext, FrameStem(stem, frameIdx, camera) + "_mask.png")
    case Custom =>
      var image := CustomImage(BaseContext(stem, frameIdx, camera, ext), ext, imagePattern);
      (image, CustomMask(BaseContext(stem, frameIdx, camera, ext), image, maskPattern))
    case Unnamed => ("", "")
  }

  /** A custom image name: the pattern substituted, with the extension
      appended unless the pattern places it itself. */
  function CustomImage(ctx: Context, ext: string, imagePattern: string): string
  {
    var name := Substitute(imagePattern, ctx);
    if Contains(imagePattern, Token("ext")) then name else name + ext
  }

  /** A custom mask name: the pattern substituted with the image name bound
      as well, with ".png" appended unless the pattern places "{ext}". */
  function CustomMask(ctx: Context, image: string, maskPattern: string): string
  {
    var name := Substitute(maskPattern, ctx + [("image_name", image)]);
    if Contains(maskPattern, Token("ext")) then name else name + ".png"
  }

  /** RealityScan and simple name the image alike and differ in the mask:
      "<image>.mask.png" against "<stem>_frame<idx>_<camera>_mask.png". */
  lemma RealityScanAndSimple(stem: string, frameIdx: nat, camera: string, ext: string, ip: string, mp: string)
    ensures var (image, mask) := Names(RealityScan, stem, frameIdx, camera, ext, ip, mp);
      image == Names(Simple, stem, frameIdx, camera, ext, ip, mp).0 &&
      image == FrameStem(stem, frameIdx, camera) + ext &&
      mask == image + ".mask.png" &&
      Names(Simple, stem, frameIdx, camera, ext, ip, mp).1 == FrameStem(stem, frameIdx, camera) + "_mask.png"
  {
  }

  /** Two views saved from different frames get different image names
      (the frame number is written out in full). */
  lemma FrameNumbersKeepNamesApart(stem: string, i: nat, j: nat, camera: string, ext: string)
    requires i != j
    ensures FrameStem(stem, i, camera) + ext != FrameStem(stem, j, camera) + ext
  {
    if FrameStem(stem, i, camera) + ext == FrameStem(stem, j, camera) + ext {
      var a, b := Pad6(i), Pad6(j);
      var k := |stem + "_frame"|;
      var s1, s2 := FrameStem(stem, i, camera) + ext, FrameStem(stem, j, camera) + ext;
      if |a| == |b| {
        assert s1[k..k + |a|] == a;
        assert s2[k..k + |b|] == b;
        Pad6Injective(i, j);
      }
    }
  }

  /** In custom mode a pattern without "{ext}" gets the format's extension
      (the image) or ".png" (the mask) appended. */
  lemma CustomSuffixes(stem: string, frameIdx: nat, camera: string, ext: string, ip: string, mp: string)
    requires !Contains(ip, Token("ext")) && !Contains(mp, Token("ext"))
    ensures var (image, mask) := Names(Custom, stem, frameIdx, camera, ext, ip, mp);
      EndsWith(image, ext) && EndsWith(mask, ".png")
  {
    var ctx := BaseContext(stem, frameIdx, camera, ext);
    var image := CustomImage(ctx, ext, ip);
    var mask := CustomMask(ctx, image, mp);
    assert image[|image| - |ext|..] == ext;
    assert mask[|mask| - 4..] == ".png";
  }

  /** `{image_name}` in a custom mask pattern stands for the full image
      name: a pattern "{image_name}<suffix>" with no other placeholder names
      the mask "<image><suffix>.png"; "{image_name}.mask" reproduces the
      RealityScan mask name. */
  lemma ImageNameBinding(stem: string, frameIdx: nat, camera: string, ext: string, ip: string, suffix: string)
    requires '{' !in suffix
    ensures var (image, mask) := Names(Custom, stem, frameIdx, camera, ext, ip, Token("image_name") + suffix);
      mask == image + suffix + ".png"
  {
    var mp := Token("image_name") + suffix;
    var ctx := BaseContext(stem, frameIdx, camera, ext);
    var image := CustomImage(ctx, ext, ip);
    forall j | 0 <= j < |ctx + [("image_name", image)]|
      ensures !Contains(mp, Token("ext")) && (j < |ctx| ==> !Contains(mp, Token(ctx[j].0)))
    {
      OnlyPlaceholder("image_name", suffix, "ext");
      if j < |ctx| {
        OnlyPlaceholder("image_name", suffix, ctx[j].0);
      }
    }
    SubstituteNoPlaceholder(mp, ctx);
    SubstituteSplit(mp, ctx, [("image_name", image)]);
    SubstituteOne(mp, "image_name", image);
    ReplaceAtStart(suffix, Token("image_name"), image);
    NoBraceNoToken(suffix, "image_name");
  }

  /** A pattern that is one placeholder followed by brace-free text holds no
      placeholder with a different first letter. */
  lemma OnlyPlaceholder(k: string, rest: string, key: string)
    requires |k| > 0 && |key| > 0 && k[0] != key[0] && '{' !in k && '{' !in rest
    ensures !Contains(Token(k) + rest, Token(key))
  {
    var s := Token(k) + rest;
    assert s[1] == k[0];
    assert s[1..] == k + "}" + rest;
    NoBraceNoToken(s[1..], key);
  }

  lemma SubstituteOne(pattern: string, key: string, value: string)
    ensures Substitute(pattern, [(key, value)]) == Replace(pattern, Token(key), value)
  {
    assert [(key, value)][1..] == [];
  }

  /** Substituting a context in two parts. */
  lemma {:induction false} SubstituteSplit(pattern: string, a: Context, b: Context)
    ensures Substitute(pattern, a + b) == Substitute(Substitute(pattern, a), b)
    decreases |a|
  {
    if a != [] {
      assert (a + b)[1..] == a[1..] + b;
      SubstituteSplit(Replace(pattern, Token(a[0].0), a[0].1), a[1..], b);
    } else {
      assert a + b == b;
    }
  }
}
