/** The camera-rig geometry: which virtual cameras a job uses (ring, cube or
    Fibonacci-sphere layouts), the rotation that orients each of them, and the
    per-pixel lookup maps that reproject an equirectangular frame into a
    rectilinear view. Trigonometry and float32 rounding are parameters. */
module Geometry {
  import opened Common
  import opened Text

  /** numpy's float value of pi. */
  const Pi: real := 3.141592653589793

  /** The floating-point functions the code takes from numpy. `nonFinite(a)`
      stands for the inf/nan that numpy yields for `a / 0`. */
  datatype Numerics = Numerics(
    sqrt: real -> real,
    sin: real -> real,
    cos: real -> real,
    tan: real -> real,
    asin: real -> real,
    atan2: (real, real) -> real,
    toFloat32: real -> real,
    nonFinite: real -> real)

  function Radians(deg: real): real { deg * Pi / 180.0 }

  function Degrees(rad: real): real { rad * 180.0 / Pi }

  /** numpy's true division; division by zero gives a non-finite value. */
  function Div(num: Numerics, a: real, b: real): real
  {
    if b == 0.0 then num.nonFinite(a) else a / b
  }

  /** Python's `x % 360.0`: the remainder takes the sign of the modulus. */
  function Wrap360(x: real): (r: real)
    ensures 0.0 <= r < 360.0
    ensures 0.0 <= x < 360.0 ==> r == x
    ensures ((x - r) / 360.0).Floor as real == (x - r) / 360.0
  {
    x - 360.0 * ((x / 360.0).Floor as real)
  }

  /** One virtual camera: `(name, yaw, pitch, roll)` in degrees. */
  datatype View = View(name: string, yaw: real, pitch: real, roll: real)

  datatype Layout = Ring | Cube | Fibonacci

  /** The branch `generate_views` takes. The cube is chosen by the camera
      count alone: 'cube' with another count falls through to the spiral. */
  function LayoutOf(n: int, layoutMode: string): Layout
  {
    if layoutMode == "ring" || (layoutMode == "adaptive" && n < 6) then Ring
    else if n == 6 then Cube
    else Fibonacci
  }

  /** `range(n)` is empty for a negative n. */
  function Count(n: int): nat { if n < 0 then 0 else n }

  function ViewName(i: nat): string { "View_" + NatToString(i) }

  function RingView(i: nat, n: int, pitchOffset: real): View
    requires n > 0
  {
    View(ViewName(i), (i as real * 360.0) / n as real, pitchOffset, 0.0)
  }

  function CubeViews(pitchOffset: real): seq<View>
  {
    [ View("Front", 0.0, pitchOffset, 0.0),
      View("Right", 90.0, pitchOffset, 0.0),
      View("Back", 180.0, pitchOffset, 0.0),
      View("Left", 270.0, pitchOffset, 0.0),
      View("Up", 0.0, 90.0, 0.0),
      View("Down", 0.0, -90.0, 0.0) ]
  }

  /** Height of the i-th spiral point: `1 - i*dst - dst/2` with `dst = 2/n`. */
  function FibY(i: nat, n: int): real
    requires n > 0
  {
    var dst := 2.0 / n as real;
    1.0 - i as real * dst - dst / 2.0
  }

  /** The golden angle `pi * (3 - sqrt 5)` between successive spiral points. */
  function GoldenAngle(num: Numerics): real { Pi * (3.0 - num.sqrt(5.0)) }

  /** The unit-sphere point at height y and azimuth phi:
      `(cos phi · r, y, sin phi · r)` with `r = sqrt(1 - y²)`. */
  function SpherePoint(num: Numerics, y: real, phi: real): Vec3
  {
    var r := num.sqrt(1.0 - y * y);
    Vec3(num.cos(phi) * r, y, num.sin(phi) * r)
  }

  /** The i-th point of the golden-section spiral as a view: the yaw of the
      point's direction wrapped into [0, 360), and its elevation plus the
      pitch offset. */
  function FibonacciView(i: nat, n: int, pitchOffset: real, num: Numerics): View
    requires n > 0
  {
    var p := SpherePoint(num, FibY(i, n), i as real * GoldenAngle(num));
    View(ViewName(i), Wrap360(Degrees(num.atan2(p.x, p.z))), Degrees(num.asin(p.y)) + pitchOffset, 0.0)
  }

  /** What `generate_views(n, pitch_offset, layout_mode)` returns; the spiral
      with n == 0 divides by zero. */
  function ExpectedViews(n: int, pitchOffset: real, layoutMode: string, num: Numerics): Result<seq<View>>
  {
    match LayoutOf(n, layoutMode)
    case Ring => Ok(seq(Count(n), i requires 0 <= i < Count(n) => RingView(i, n, pitchOffset)))
    case Cube => Ok(CubeViews(pitchOffset))
    case Fibonacci =>
      if n == 0 then Fail("float division by zero")
      else Ok(seq(Count(n), i requires 0 <= i < Count(n) => FibonacciView(i, n, pitchOffset, num)))
  }

  /** `GeometryProcessor.generate_views`, building the list by appending. */
  method GenerateViews(n: int, pitchOffset: real, layoutMode: string, num: Numerics) returns (r: Result<seq<View>>)
    ensures r == ExpectedViews(n, pitchOffset, layoutMode, num)
  {
    var views: seq<View> := [];
    if layoutMode == "ring" || (layoutMode == "adaptive" && n < 6) {
      var i := 0;
      while i < n
        invariant 0 <= i <= Count(n)
        invariant |views| == i
        invariant forall k :: 0 <= k < i ==> views[k] == RingView(k, n, pitchOffset)
      {
        var yaw := (i as real * 360.0) / n as real;
        views := views + [View("View_" + NatToString(i), yaw, pitchOffset, 0.0)];
        i := i + 1;
      }
      assert LayoutOf(n, layoutMode) == Ring;
      assert views == seq(Count(n), k requires 0 <= k < Count(n) => RingView(k, n, pitchOffset));
    } else if n == 6 {
      views := views + [View("Front", 0.0, pitchOffset, 0.0)];
      views := views + [View("Right", 90.0, pitchOffset, 0.0)];
      views := views + [View("Back", 180.0, pitchOffset, 0.0)];
      views := views + [View("Left", 270.0, pitchOffset, 0.0)];
      views := views + [View("Up", 0.0, 90.0, 0.0)];
      views := views + [View("Down", 0.0, -90.0, 0.0)];
      assert LayoutOf(n, layoutMode) == Cube && views == CubeViews(pitchOffset);
    } else {
      if n == 0 {
        return Fail("float division by zero");
      }
      views := SpiralViews(n, pitchOffset, num);
      assert LayoutOf(n, layoutMode) == Fibonacci;
    }
    r := Ok(views);
  }

  /** The golden-section spiral branch of `generate_views` (a negative count
      gives no views). */
  method SpiralViews(n: int, pitchOffset: real, num: Numerics) returns (views: seq<View>)
    requires n != 0
    ensures views == seq(Count(n), i requires 0 <= i < Count(n) => FibonacciView(i, n, pitchOffset, num))
  {
    views := [];
    var dst := 2.0 / n as real;
    var inc := Pi * (3.0 - num.sqrt(5.0));
    var i := 0;
    while i < n
      invariant 0 <= i <= Count(n)
      invariant |views| == i
      invariant forall k :: 0 <= k < i ==> views[k] == FibonacciView(k, n, pitchOffset, num)
      invariant dst == 2.0 / n as real && inc == GoldenAngle(num)
    {
      var v := SpiralStep(i, n, dst, inc, pitchOffset, num);
      views := views + [v];
      i := i + 1;
    }
  }

  /** One iteration of the spiral loop: height, azimuth, sphere point, then
      pitch and yaw in degrees. */
  method SpiralStep(i: nat, n: int, dst: real, inc: real, pitchOffset: real, num: Numerics) returns (v: View)
    requires n > 0 && dst == 2.0 / n as real && inc == GoldenAngle(num)
    ensures v == FibonacciView(i, n, pitchOffset, num)
  {
    var y := 1.0 - i as real * dst - dst / 2.0;
    var phi := i as real * inc;
    var p := SpherePoint(num, y, phi);
    var pitchDeg := Degrees(num.asin(y));
    var yawDeg := Degrees(num.atan2(p.x, p.z));
    yawDeg := Wrap360(yawDeg);
    var finalPitch := pitchDeg + pitchOffset;
    assert y == FibY(i, n) && phi == i as real * GoldenAngle(num);
    assert p == SpherePoint(num, FibY(i, n), i as real * GoldenAngle(num));
    v := View("View_" + NatToString(i), yawDeg, finalPitch, 0.0);
  }

  // ---------------------------------------------------------------------
  // Properties of the layouts

  /** Every successful call returns one view per requested camera, except the
      cube, which always has six; the only failure is the empty spiral. */
  lemma ViewCount(n: int, pitchOffset: real, layoutMode: string, num: Numerics)
    ensures ExpectedViews(n, pitchOffset, layoutMode, num).Fail?
      <==> n == 0 && LayoutOf(n, layoutMode) == Fibonacci
    ensures n >= 1 ==> (ExpectedViews(n, pitchOffset, layoutMode, num).Ok? &&
                        |ExpectedViews(n, pitchOffset, layoutMode, num).value| == n)
  {
  }

  /** Ring layout: view i is "View_i" at yaw i·360/n on the horizon tilted by
      the pitch offset, yaws in [0, 360) and increasing. */
  lemma RingLayout(n: int, pitchOffset: real, layoutMode: string, num: Numerics)
    requires n > 0 && LayoutOf(n, layoutMode) == Ring
    ensures var vs := ExpectedViews(n, pitchOffset, layoutMode, num).value;
      |vs| == n &&
      forall i :: 0 <= i < n ==>
        vs[i].name == ViewName(i) && vs[i].yaw == (i as real * 360.0) / n as real &&
        0.0 <= vs[i].yaw < 360.0 && vs[i].pitch == pitchOffset && vs[i].roll == 0.0 &&
        (i > 0 ==> vs[i - 1].yaw < vs[i].yaw)
  {
    var vs := ExpectedViews(n, pitchOffset, layoutMode, num).value;
    forall i | 0 <= i < n
      ensures 0.0 <= vs[i].yaw < 360.0
      ensures i > 0 ==> vs[i - 1].yaw < vs[i].yaw
    {
      RingYawBounds(i, n);
      if i > 0 {
        RingYawBounds(i - 1, n);
        RingYawIncreasing(i, n);
      }
    }
  }

  lemma RingYawBounds(i: nat, n: int)
    requires i < n
    ensures 0.0 <= (i as real * 360.0) / n as real < 360.0
  {
    var nr := n as real;
    var y := (i as real * 360.0) / nr;
    assert y * nr == i as real * 360.0;
  }

  lemma RingYawIncreasing(i: nat, n: int)
    requires 0 < i < n
    ensures ((i - 1) as real * 360.0) / n as real < (i as real * 360.0) / n as real
  {
    var nr := n as real;
    var a, b := ((i - 1) as real * 360.0) / nr, (i as real * 360.0) / nr;
    assert b - a == 360.0 / nr;
    assert 360.0 / nr > 0.0;
  }

  /** The ring branch is taken for 'ring' and for 'adaptive' below six cameras. */
  lemma RingSelection(n: int, layoutMode: string)
    ensures LayoutOf(n, layoutMode) == Ring <==> layoutMode == "ring" || (layoutMode == "adaptive" && n < 6)
    ensures LayoutOf(n, layoutMode) == Cube <==> !(layoutMode == "ring" || (layoutMode == "adaptive" && n < 6)) && n == 6
  {
  }

  /** Any non-ring selection with six cameras gives the cube: four horizontal
      views tilted by the offset, then the poles, which ignore it. */
  lemma CubeLayout(pitchOffset: real, layoutMode: string, num: Numerics)
    requires layoutMode != "ring"
    ensures var vs := ExpectedViews(6, pitchOffset, layoutMode, num).value;
      |vs| == 6 &&
      (forall i :: 0 <= i < 4 ==> vs[i].yaw == 90.0 * i as real && vs[i].pitch == pitchOffset) &&
      vs[0].name == "Front" && vs[1].name == "Right" && vs[2].name == "Back" && vs[3].name == "Left" &&
      vs[4] == View("Up", 0.0, 90.0, 0.0) && vs[5] == View("Down", 0.0, -90.0, 0.0)
  {
  }

  /** 'cube' with a count other than six is not a cube: it is the spiral, with
      one "View_i" per requested camera (twelve views for twelve cameras). */
  lemma CubeModeFallsThrough(n: int, pitchOffset: real, num: Numerics)
    requires n > 0 && n != 6
    ensures var vs := ExpectedViews(n, pitchOffset, "cube", num).value;
      |vs| == n && forall i :: 0 <= i < n ==> vs[i] == FibonacciView(i, n, pitchOffset, num)
  {
  }

  /** The spiral's heights lie strictly inside (-1, 1) and decrease with i. */
  lemma FibYInside(i: nat, n: int)
    requires 0 <= i < n
    ensures -1.0 < FibY(i, n) < 1.0
    ensures i > 0 ==> FibY(i, n) < FibY(i - 1, n)
  {
    var nr := n as real;
    var dst := 2.0 / nr;
    assert 0.0 < dst;
    var k := 2.0 * i as real + 1.0;
    assert FibY(i, n) == 1.0 - k / nr;
    SpiralOffsetBounds(k, nr);
  }

  lemma MulMonotone(a: real, b: real, c: real)
    requires a <= b && c > 0.0
    ensures a * c <= b * c
  {
  }

  lemma SpiralOffsetBounds(k: real, nr: real)
    requires 0.0 < k < 2.0 * nr
    ensures 0.0 < k / nr < 2.0
  {
    var q := k / nr;
    assert q * nr == k;
    if q >= 2.0 {
      MulMonotone(2.0, q, nr);
      assert false;
    }
    if q <= 0.0 {
      MulMonotone(q, 0.0, nr);
      assert false;
    }
  }

  /** Fibonacci layout: "View_i", roll 0, yaw normalised into [0, 360), pitch
      the arcsine of a height strictly inside (-1, 1) plus the offset. */
  lemma FibonacciLayout(n: int, pitchOffset: real, layoutMode: string, num: Numerics)
    requires n > 0 && LayoutOf(n, layoutMode) == Fibonacci
    ensures var vs := ExpectedViews(n, pitchOffset, layoutMode, num).value;
      |vs| == n &&
      forall i :: 0 <= i < n ==>
        vs[i].name == ViewName(i) && vs[i].roll == 0.0 &&
        0.0 <= vs[i].yaw < 360.0 &&
        -1.0 < FibY(i, n) < 1.0 &&
        vs[i].pitch == Degrees(num.asin(FibY(i, n))) + pitchOffset
  {
    forall i | 0 <= i < n ensures -1.0 < FibY(i, n) < 1.0 {
      FibYInside(i, n);
    }
  }

  lemma ViewNameInjective(i: nat, j: nat)
    requires ViewName(i) == ViewName(j)
    ensures i == j
  {
    var p := "View_";
    assert ViewName(i)[|p|..] == NatToString(i);
    assert ViewName(j)[|p|..] == NatToString(j);
    NatToStringInjective(i, j);
  }

  /** No two views of a layout share a name (the processor keys its maps by name). */
  lemma NamesDistinct(n: int, pitchOffset: real, layoutMode: string, num: Numerics)
    requires ExpectedViews(n, pitchOffset, layoutMode, num).Ok?
    ensures var vs := ExpectedViews(n, pitchOffset, layoutMode, num).value;
      forall i, j :: 0 <= i < j < |vs| ==> vs[i].name != vs[j].name
  {
    var vs := ExpectedViews(n, pitchOffset, layoutMode, num).value;
    if LayoutOf(n, layoutMode) != Cube {
      forall i, j | 0 <= i < j < |vs| ensures vs[i].name != vs[j].name {
        if vs[i].name == vs[j].name {
          ViewNameInjective(i, j);
        }
      }
    }
  }

  // ---------------------------------------------------------------------
  // Rotation

  datatype Vec3 = Vec3(x: real, y: real, z: real)

  /** A 3×3 matrix by rows. */
  datatype Mat3 = Mat3(r0: Vec3, r1: Vec3, r2: Vec3)

  function Dot(u: Vec3, v: Vec3): real { u.x * v.x + u.y * v.y + u.z * v.z }

  function SqNorm(v: Vec3): real { Dot(v, v) }

  function Col(m: Mat3, j: nat): Vec3
    requires j < 3
  {
    if j == 0 then Vec3(m.r0.x, m.r1.x, m.r2.x)
    else if j == 1 then Vec3(m.r0.y, m.r1.y, m.r2.y)
    else Vec3(m.r0.z, m.r1.z, m.r2.z)
  }

  /** The matrix product `a @ b`. */
  function MatMul(a: Mat3, b: Mat3): Mat3
  {
    Mat3(Vec3(Dot(a.r0, Col(b, 0)), Dot(a.r0, Col(b, 1)), Dot(a.r0, Col(b, 2))),
         Vec3(Dot(a.r1, Col(b, 0)), Dot(a.r1, Col(b, 1)), Dot(a.r1, Col(b, 2))),
         Vec3(Dot(a.r2, Col(b, 0)), Dot(a.r2, Col(b, 1)), Dot(a.r2, Col(b, 2))))
  }

  /** The matrix-vector product `m @ v`. */
  function Apply(m: Mat3, v: Vec3): Vec3 { Vec3(Dot(m.r0, v), Dot(m.r1, v), Dot(m.r2, v)) }

  const Identity: Mat3 := Mat3(Vec3(1.0, 0.0, 0.0), Vec3(0.0, 1.0, 0.0), Vec3(0.0, 0.0, 1.0))

  /** Rotation about X (pitch). */
  function Rx(num: Numerics, a: real): Mat3
  {
    Mat3(Vec3(1.0, 0.0, 0.0), Vec3(0.0, num.cos(a), -num.sin(a)), Vec3(0.0, num.sin(a), num.cos(a)))
  }

  /** Rotation about Y (yaw). */
  function Ry(num: Numerics, a: real): Mat3
  {
    Mat3(Vec3(num.cos(a), 0.0, num.sin(a)), Vec3(0.0, 1.0, 0.0), Vec3(-num.sin(a), 0.0, num.cos(a)))
  }

  /** Rotation about Z (roll). */
  function Rz(num: Numerics, a: real): Mat3
  {
    Mat3(Vec3(num.cos(a), -num.sin(a), 0.0), Vec3(num.sin(a), num.cos(a), 0.0), Vec3(0.0, 0.0, 1.0))
  }

  /** `get_rotation_matrix`: `Ry @ Rx @ Rz` of the angles in radians. */
  function RotationMatrix(num: Numerics, yawDeg: real, pitchDeg: real, rollDeg: real): Mat3
  {
    MatMul(MatMul(Ry(num, Radians(yawDeg)), Rx(num, Radians(pitchDeg))), Rz(num, Radians(rollDeg)))
  }

  lemma MatMulApply(a: Mat3, b: Mat3, v: Vec3)
    ensures Apply(MatMul(a, b), v) == Apply(a, Apply(b, v))
  {
  }

  /** The composition order: a camera ray is rolled first, then pitched, then
      yawed. */
  lemma RotationOrder(num: Numerics, yawDeg: real, pitchDeg: real, rollDeg: real, v: Vec3)
    ensures Apply(RotationMatrix(num, yawDeg, pitchDeg, rollDeg), v)
      == Apply(Ry(num, Radians(yawDeg)), Apply(Rx(num, Radians(pitchDeg)), Apply(Rz(num, Radians(rollDeg)), v)))
  {
    var y, p, r := Ry(num, Radians(yawDeg)), Rx(num, Radians(pitchDeg)), Rz(num, Radians(rollDeg));
    MatMulApply(MatMul(y, p), r, v);
    MatMulApply(y, p, Apply(r, v));
  }

  /** With cos 0 = 1 and sin 0 = 0, the zero rotation is the identity. */
  lemma RotationIdentityAtZero(num: Numerics)
    requires num.cos(0.0) == 1.0 && num.sin(0.0) == 0.0
    ensures RotationMatrix(num, 0.0, 0.0, 0.0) == Identity
  {
    assert Radians(0.0) == 0.0;
    assert Rx(num, 0.0) == Identity && Ry(num, 0.0) == Identity && Rz(num, 0.0) == Identity;
    assert MatMul(Identity, Identity) == Identity;
  }

  /** sin² + cos² = 1 at every angle. */
  ghost predicate PythagoreanTrig(num: Numerics)
  {
    forall a :: num.sin(a) * num.sin(a) + num.cos(a) * num.cos(a) == 1.0
  }

  lemma PlaneRotationKeepsNorm(c: real, s: real, u: real, w: real)
    requires c * c + s * s == 1.0
    ensures (c * u - s * w) * (c * u - s * w) + (s * u + c * w) * (s * u + c * w) == u * u + w * w
  {
    calc {
      (c * u - s * w) * (c * u - s * w) + (s * u + c * w) * (s * u + c * w);
      (c * c + s * s) * (u * u) + (c * c + s * s) * (w * w);
      u * u + w * w;
    }
  }

  lemma RxKeepsNorm(num: Numerics, a: real, v: Vec3)
    requires PythagoreanTrig(num)
    ensures SqNorm(Apply(Rx(num, a), v)) == SqNorm(v)
  {
    var c, s := num.cos(a), num.sin(a);
    assert c * c + s * s == 1.0;
    PlaneRotationKeepsNorm(c, s, v.y, v.z);
    assert Apply(Rx(num, a), v) == Vec3(v.x, c * v.y - s * v.z, s * v.y + c * v.z);
  }

  lemma RyKeepsNorm(num: Numerics, a: real, v: Vec3)
    requires PythagoreanTrig(num)
    ensures SqNorm(Apply(Ry(num, a), v)) == SqNorm(v)
  {
    var c, s := num.cos(a), num.sin(a);
    assert c * c + (-s) * (-s) == 1.0;
    PlaneRotationKeepsNorm(c, -s, v.x, v.z);
    assert Apply(Ry(num, a), v) == Vec3(c * v.x - (-s) * v.z, v.y, (-s) * v.x + c * v.z);
  }

  lemma RzKeepsNorm(num: Numerics, a: real, v: Vec3)
    requires PythagoreanTrig(num)
    ensures SqNorm(Apply(Rz(num, a), v)) == SqNorm(v)
  {
    var c, s := num.cos(a), num.sin(a);
    assert c * c + s * s == 1.0;
    PlaneRotationKeepsNorm(c, s, v.x, v.y);
    assert Apply(Rz(num, a), v) == Vec3(c * v.x - s * v.y, s * v.x + c * v.y, v.z);
  }

  /** Under sin² + cos² = 1 the camera rotation preserves lengths. */
  lemma RotationKeepsNorm(num: Numerics, yawDeg: real, pitchDeg: real, rollDeg: real, v: Vec3)
    requires PythagoreanTrig(num)
    ensures SqNorm(Apply(RotationMatrix(num, yawDeg, pitchDeg, rollDeg), v)) == SqNorm(v)
  {
    RotationOrder(num, yawDeg, pitchDeg, rollDeg, v);
    var v1 := Apply(Rz(num, Radians(rollDeg)), v);
    var v2 := Apply(Rx(num, Radians(pitchDeg)), v1);
    RzKeepsNorm(num, Radians(rollDeg), v);
    RxKeepsNorm(num, Radians(pitchDeg), v1);
    RyKeepsNorm(num, Radians(yawDeg), v2);
  }

  // ---------------------------------------------------------------------
  // Reprojection maps

  /** The two `cv2.remap` lookup grids, `dest_h` rows of `dest_w` entries. */
  datatype PixelMaps = PixelMaps(mapX: seq<seq<real>>, mapY: seq<seq<real>>)

  predicate HasShape(g: seq<seq<real>>, rows: nat, cols: nat)
  {
    |g| == rows && forall r :: 0 <= r < rows ==> |g[r]| == cols
  }

  /** The camera ray through destination pixel (row, col) on the z = 1 plane. */
  function PixelRay(num: Numerics, destH: nat, destW: nat, fovDeg: real, row: nat, col: nat): Vec3
  {
    var f := Div(num, 0.5 * destW as real, num.tan(0.5 * Radians(fovDeg)));
    var cx, cy := destW as real / 2.0, destH as real / 2.0;
    Vec3(Div(num, col as real - cx, f), Div(num, row as real - cy, f), 1.0)
  }

  /** Where a rotated ray lands in the equirectangular source: longitude
      `atan2(x, z)` scaled to the width, latitude `asin(y / |v|)` to the height. */
  function SourceCoords(num: Numerics, srcH: int, srcW: int, v: Vec3): (real, real)
  {
    var theta := num.atan2(v.x, v.z);
    var r := num.sqrt(SqNorm(v));
    var phi := num.asin(Div(num, v.y, r));
    ((theta / (2.0 * Pi) + 0.5) * srcW as real, (phi / Pi + 0.5) * srcH as real)
  }

  function PixelSource(num: Numerics, srcH: int, srcW: int, destH: nat, destW: nat, fovDeg: real,
                       rot: Mat3, row: nat, col: nat): (real, real)
  {
    SourceCoords(num, srcH, srcW, Apply(rot, PixelRay(num, destH, destW, fovDeg, row, col)))
  }

  /** A `rows` × `cols` grid holding `f(r, c)` at row r, column c. */
  function Grid(rows: nat, cols: nat, f: (nat, nat) -> real): (g: seq<seq<real>>)
    ensures HasShape(g, rows, cols)
    ensures forall r, c :: 0 <= r < rows && 0 <= c < cols ==> g[r][c] == f(r, c)
  {
    seq(rows, r requires 0 <= r < rows => seq(cols, c requires 0 <= c < cols => f(r, c)))
  }

  /** The float32 source coordinates `(u, v)` that destination pixel
      (row, col) of the view oriented by `rot` samples. */
  function MapEntry(num: Numerics, srcH: int, srcW: int, destH: nat, destW: nat, fovDeg: real,
                    rot: Mat3, row: nat, col: nat): (real, real)
  {
    var uv := PixelSource(num, srcH, srcW, destH, destW, fovDeg, rot, row, col);
    (num.toFloat32(uv.0), num.toFloat32(uv.1))
  }

  /** The two lookup grids for a view oriented by `rot`. */
  function MapsFor(num: Numerics, srcH: int, srcW: int, destH: nat, destW: nat, fovDeg: real, rot: Mat3): (m: PixelMaps)
    ensures HasShape(m.mapX, destH, destW) && HasShape(m.mapY, destH, destW)
    ensures forall r, c :: 0 <= r < destH && 0 <= c < destW ==>
      (m.mapX[r][c], m.mapY[r][c]) == MapEntry(num, srcH, srcW, destH, destW, fovDeg, rot, r, c)
  {
    PixelMaps(
      Grid(destH, destW, (r: nat, c: nat) => MapEntry(num, srcH, srcW, destH, destW, fovDeg, rot, r, c).0),
      Grid(destH, destW, (r: nat, c: nat) => MapEntry(num, srcH, srcW, destH, destW, fovDeg, rot, r, c).1))
  }

  /** `create_rectilinear_map`: two float32 grids of the destination's shape
      whose entries are the source coordinates of each destination pixel
      under the view's rotation. */
  function RectilinearMap(num: Numerics, srcH: int, srcW: int, destH: nat, destW: nat, fovDeg: real,
                          yawDeg: real, pitchDeg: real, rollDeg: real): (m: PixelMaps)
    ensures HasShape(m.mapX, destH, destW) && HasShape(m.mapY, destH, destW)
    ensures m == MapsFor(num, srcH, srcW, destH, destW, fovDeg, RotationMatrix(num, yawDeg, pitchDeg, rollDeg))
  {
    MapsFor(num, srcH, srcW, destH, destW, fovDeg, RotationMatrix(num, yawDeg, pitchDeg, rollDeg))
  }

  /** Every camera ray has length at least one after rotation, so the
      latitude's division by the ray length never divides by zero. */
  lemma RotatedRayAtLeastUnit(num: Numerics, destH: nat, destW: nat, fovDeg: real,
                              yawDeg: real, pitchDeg: real, rollDeg: real, row: nat, col: nat)
    requires PythagoreanTrig(num)
    ensures SqNorm(Apply(RotationMatrix(num, yawDeg, pitchDeg, rollDeg), PixelRay(num, destH, destW, fovDeg, row, col))) >= 1.0
  {
    var v := PixelRay(num, destH, destW, fovDeg, row, col);
    RotationKeepsNorm(num, yawDeg, pitchDeg, rollDeg, v);
    assert v.z == 1.0;
    assert v.x * v.x >= 0.0 && v.y * v.y >= 0.0;
  }
}
