/**
 * The camera rig: a route-to-camera table, a Catmull-Rom cubic segment,
 * arcing control points, a spring-damped transition progress, and the
 * per-frame update that writes the camera's position and field of view.
 */
module CameraRig {
  import opened Vectors
  import opened Options

  // ---------------------------------------------------------------------
  // The route table
  // ---------------------------------------------------------------------

  /** Table coordinates; the table's literals are all integers. */
  datatype Coord3 = Coord3(x: int, y: int, z: int)

  datatype CameraState = CameraState(position: Coord3, target: Coord3, fov: int)

  function ToVec(c: Coord3): Vec3 {
    Vec3(c.x as real, c.y as real, c.z as real)
  }

  const HomeCamera: CameraState := CameraState(Coord3(0, 2, 10), Coord3(0, 0, 0), 55)
  const AboutCamera: CameraState := CameraState(Coord3(6, 3, 12), Coord3(0, 1, 0), 50)
  const ProjectsCamera: CameraState := CameraState(Coord3(0, 5, 18), Coord3(0, 0, -2), 60)
  const ContactCamera: CameraState := CameraState(Coord3(-6, 2, 10), Coord3(0, 0, 0), 48)

  predicate IsTableRoute(route: string) {
    route in {"/", "/about", "/projects", "/contact"}
  }

  /** `CAMERA_STATES[route] || CAMERA_STATES["/"]`: always one of the four entries. */
  function CameraStateFor(route: string): (c: CameraState)
    ensures c == HomeCamera || c == AboutCamera || c == ProjectsCamera || c == ContactCamera
    ensures c == HomeCamera <==> route !in {"/about", "/projects", "/contact"}
  {
    if route == "/about" then AboutCamera
    else if route == "/projects" then ProjectsCamera
    else if route == "/contact" then ContactCamera
    else HomeCamera
  }

  /** Each table route gets its own entry, every other route the entry of "/". */
  lemma CameraStateLookup(route: string)
    ensures route == "/" ==> CameraStateFor(route) == HomeCamera
    ensures route == "/about" ==> CameraStateFor(route) == AboutCamera
    ensures route == "/projects" ==> CameraStateFor(route) == ProjectsCamera
    ensures route == "/contact" ==> CameraStateFor(route) == ContactCamera
    ensures !IsTableRoute(route) ==> CameraStateFor(route) == CameraStateFor("/")
  {
  }

  // ---------------------------------------------------------------------
  // The re-arm guard compares a route with `position.toString()`
  // ---------------------------------------------------------------------

  const Digits: string := "0123456789"

  /** Number.prototype.toString for a non-negative integer. */
  function NatToString(n: nat): string
    decreases n
  {
    if n < 10 then [Digits[n]]
    else NatToString(n / 10) + [Digits[n % 10]]
  }

  /** Number.prototype.toString for an integer. */
  function IntToString(i: int): string {
    if i < 0 then "-" + NatToString(-i) else NatToString(i)
  }

  /** Array.prototype.toString of a three-number array: the numbers joined by commas. */
  function PositionString(c: Coord3): string {
    IntToString(c.x) + "," + IntToString(c.y) + "," + IntToString(c.z)
  }

  /** A non-negative integer prints as a non-empty string of decimal digits. */
  lemma {:induction false} NatToStringDigits(n: nat)
    ensures |NatToString(n)| > 0
    ensures forall k :: 0 <= k < |NatToString(n)| ==> NatToString(n)[k] in Digits
    decreases n
  {
    if n >= 10 {
      NatToStringDigits(n / 10);
      var s := NatToString(n / 10);
      assert NatToString(n) == s + [Digits[n % 10]];
    }
  }

  /** An integer prints with digits and at most a minus sign. */
  lemma IntToStringChars(i: int)
    ensures forall k :: 0 <= k < |IntToString(i)| ==> IntToString(i)[k] in Digits || IntToString(i)[k] == '-'
  {
    if i < 0 {
      NatToStringDigits(-i);
      assert IntToString(i) == "-" + NatToString(-i);
    } else {
      NatToStringDigits(i);
    }
  }

  /** No table position prints with a '/'. */
  lemma PositionStringHasNoSlash(c: Coord3)
    ensures '/' !in PositionString(c)
  {
    var a, b, d := IntToString(c.x), IntToString(c.y), IntToString(c.z);
    IntToStringChars(c.x);
    IntToStringChars(c.y);
    IntToStringChars(c.z);
    var s := PositionString(c);
    assert s == a + "," + b + "," + d;
    forall k | 0 <= k < |s| ensures s[k] != '/' {
      if k < |a| { assert s[k] == a[k]; }
      else if k == |a| { assert s[k] == ','; }
      else if k < |a| + 1 + |b| { assert s[k] == b[k - |a| - 1]; }
      else if k == |a| + 1 + |b| { assert s[k] == ','; }
      else { assert s[k] == d[k - |a| - |b| - 2]; }
    }
  }

  /**
   * The guard of the re-arm block, as written. For any route containing '/'
   * (every pathname) it is just "not transitioning", since the position
   * string never contains '/'.
   */
  function RearmGuard(toRoute: string, previous: CameraState, transitioning: bool): (g: bool)
    ensures g ==> !transitioning
    ensures '/' in toRoute ==> (g <==> !transitioning)
  {
    PositionStringHasNoSlash(previous.position);
    toRoute != PositionString(previous.position) && !transitioning
  }

  // ---------------------------------------------------------------------
  // Spline and control points
  // ---------------------------------------------------------------------

  /** One component of the uniform Catmull-Rom segment between p1 and p2. */
  function CatmullRom(t: real, p0: real, p1: real, p2: real, p3: real): (r: real)
    ensures t == 0.0 ==> r == p1
    ensures t == 1.0 ==> r == p2
  {
    var t2 := t * t;
    var t3 := t2 * t;
    0.5 * ((2.0 * p1) + (-p0 + p2) * t + (2.0 * p0 - 5.0 * p1 + 4.0 * p2 - p3) * t2 + (-p0 + 3.0 * p1 - 3.0 * p2 + p3) * t3)
  }

  /** The four control points `[start, p1, p2, end]` of a spline. */
  datatype Controls = Controls(p0: Vec3, p1: Vec3, p2: Vec3, p3: Vec3)

  /** `cubicSpline(t, p0, p1, p2, p3)`: it passes through the interior points, not the ends. */
  function CubicSpline(t: real, c: Controls): (r: Vec3)
    ensures t == 0.0 ==> r == c.p1
    ensures t == 1.0 ==> r == c.p2
  {
    Vec3(CatmullRom(t, c.p0.x, c.p1.x, c.p2.x, c.p3.x),
         CatmullRom(t, c.p0.y, c.p1.y, c.p2.y, c.p3.y),
         CatmullRom(t, c.p0.z, c.p1.z, c.p2.z, c.p3.z))
  }

  /** The arc height added to both interior control points. */
  const ArcOffset: Vec3 := Vec3(0.0, 2.0, 0.0)

  /**
   * `generateControlPoints(start, end)`: the interior points sit a quarter
   * and three quarters of the way from start to end, lifted by 2 on y.
   */
  function GenerateControlPoints(start: Vec3, end: Vec3): (c: Controls)
    ensures c.p0 == start && c.p3 == end
    ensures c.p1 == Vec3((3.0 * start.x + end.x) / 4.0, (3.0 * start.y + end.y) / 4.0 + 2.0, (3.0 * start.z + end.z) / 4.0)
    ensures c.p2 == Vec3((start.x + 3.0 * end.x) / 4.0, (start.y + 3.0 * end.y) / 4.0 + 2.0, (start.z + 3.0 * end.z) / 4.0)
  {
    var mid := Vec3(start.x + (end.x - start.x) * 0.5, start.y + (end.y - start.y) * 0.5, start.z + (end.z - start.z) * 0.5);
    Controls(start,
             Vec3((start.x + mid.x) * 0.5 + ArcOffset.x, (start.y + mid.y) * 0.5 + ArcOffset.y, (start.z + mid.z) * 0.5 + ArcOffset.z),
             Vec3((end.x + mid.x) * 0.5 + ArcOffset.x, (end.y + mid.y) * 0.5 + ArcOffset.y, (end.z + mid.z) * 0.5 + ArcOffset.z),
             end)
  }

  /**
   * The same points in the vector operations the source chains: the
   * midpoint is the lerp at one half, and each interior point is the average
   * of an end with the midpoint, raised by the arc offset.
   */
  lemma ControlPointsAsVectorOps(start: Vec3, end: Vec3)
    ensures GenerateControlPoints(start, end).p1 == Add(Scale(Add(start, VLerp(start, end, 0.5)), 0.5), ArcOffset)
    ensures GenerateControlPoints(start, end).p2 == Add(Scale(Add(end, VLerp(start, end, 0.5)), 0.5), ArcOffset)
  {
  }

  /**
   * With start = end = e (what a re-arm produces), the sampled curve is e
   * lifted by 2 + t - t^2 on y: it starts and ends 2 above e and bulges by
   * at most a quarter in between; x and z stay those of e.
   */
  lemma {:induction false} CollapsedSpline(e: Vec3, t: real)
    ensures CubicSpline(t, GenerateControlPoints(e, e)) == Vec3(e.x, e.y + 2.0 + t - t * t, e.z)
    ensures 0.0 <= t <= 1.0 ==> e.y + 2.0 <= CubicSpline(t, GenerateControlPoints(e, e)).y <= e.y + 2.25
  {
    var c := GenerateControlPoints(e, e);
    assert c.p1 == Add(e, ArcOffset) && c.p2 == Add(e, ArcOffset);
    CatmullRomCollapsed(t, e.x, 0.0);
    CatmullRomCollapsed(t, e.y, 2.0);
    CatmullRomCollapsed(t, e.z, 0.0);
    assert 0.0 <= t <= 1.0 ==> 0.0 <= t - t * t <= 0.25 by {
      if 0.0 <= t <= 1.0 {
        MulNonneg(t, 1.0 - t);
        SquareNonneg(t - 0.5);
        assert t - t * t == t * (1.0 - t);
        assert 0.25 - (t - t * t) == (t - 0.5) * (t - 0.5);
      }
    }
  }

  lemma CatmullRomCollapsed(t: real, e: real, h: real)
    ensures CatmullRom(t, e, e + h, e + h, e) == e + h + h * (t - t * t) / 2.0
  {
  }

  /** At the snap (progress 1) the camera sits on p2, which is not the target position. */
  lemma SnapSample(start: Vec3, end: Vec3)
    ensures CubicSpline(Smoothstep(1.0), GenerateControlPoints(start, end)) ==
            Vec3((start.x + 3.0 * end.x) / 4.0, (start.y + 3.0 * end.y) / 4.0 + 2.0, (start.z + 3.0 * end.z) / 4.0)
  {
  }

  // ---------------------------------------------------------------------
  // Easing and the spring
  // ---------------------------------------------------------------------

  /** `t * t * (3 - 2t)`. */
  function Smoothstep(t: real): (r: real)
    ensures t == 0.0 ==> r == 0.0
    ensures t == 1.0 ==> r == 1.0
    ensures 0.0 <= t <= 1.0 ==> 0.0 <= r <= 1.0
  {
    var r := t * t * (3.0 - 2.0 * t);
    assert 0.0 <= t <= 1.0 ==> 0.0 <= r <= 1.0 by {
      if 0.0 <= t <= 1.0 {
        MulNonneg(t, t);
        MulNonneg(t * t, 3.0 - 2.0 * t);
        MulNonneg(1.0 - t, 1.0 - t);
        MulNonneg((1.0 - t) * (1.0 - t), 1.0 + 2.0 * t);
        assert 1.0 - r == (1.0 - t) * (1.0 - t) * (1.0 + 2.0 * t);
      }
    }
    r
  }

  /** Smoothstep never moves backwards on [0, 1]. */
  lemma SmoothstepMonotone(a: real, b: real)
    requires 0.0 <= a <= b <= 1.0
    ensures Smoothstep(a) <= Smoothstep(b)
  {
    var aa, ab, bb := a * a, a * b, b * b;
    MulNonneg(a, 1.0 - a);
    MulNonneg(a, 1.0 - b);
    MulNonneg(b, 1.0 - b);
    assert a - aa == a * (1.0 - a) && a - ab == a * (1.0 - b) && b - bb == b * (1.0 - b);
    var d := 3.0 * (a + b) - 2.0 * (aa + ab + bb);
    assert d >= b - a >= 0.0;
    assert Smoothstep(b) - Smoothstep(a) == (b - a) * d;
    MulNonneg(b - a, d);
  }

  const Stiffness: real := 3.0
  const Damping: real := 2.0
  const MaxVelocity: real := 2.0
  const SnapThreshold: real := 0.98

  /** The velocity after one integration step, clamped to [-2, 2]. */
  function StepVelocity(progress: real, velocity: real, delta: real): (v: real)
    ensures -MaxVelocity <= v <= MaxVelocity
    ensures var raw := velocity + ((1.0 - progress) * Stiffness - velocity * Damping) * delta;
            -MaxVelocity <= raw <= MaxVelocity ==> v == raw
  ensures var raw := velocity + ((1.0 - progress) * Stiffness - velocity * Damping) * delta;
            raw > MaxVelocity ==> v == MaxVelocity
  ensures var raw := velocity + ((1.0 - progress) * Stiffness - velocity * Damping) * delta;
            raw < -MaxVelocity ==> v == -MaxVelocity
  {
    Max(Min(RawVelocity(progress, velocity, delta), MaxVelocity), -MaxVelocity)
  }

  /** The unclamped velocity: the spring pulls toward progress 1 against the damping. */
  function RawVelocity(progress: real, velocity: real, delta: real): real {
    var error := 1.0 - progress;
    var acceleration := error * Stiffness - velocity * Damping;
    velocity + acceleration * delta
  }

  datatype Spring = Spring(progress: real, velocity: real, active: bool)

  /**
   * One transition frame of the spring: integrate, clamp, advance, and snap
   * to rest when the progress reaches 0.98.
   */
  function SpringStep(progress: real, velocity: real, delta: real): (s: Spring)
    ensures -MaxVelocity <= s.velocity <= MaxVelocity
    ensures var advanced := progress + StepVelocity(progress, velocity, delta) * delta;
            if advanced >= SnapThreshold then s == Spring(1.0, 0.0, false)
            else s == Spring(advanced, StepVelocity(progress, velocity, delta), true)
    ensures s.active ==> s.progress < SnapThreshold
  {
    var v := StepVelocity(progress, velocity, delta);
    var p := progress + v * delta;
    if p >= SnapThreshold then Spring(1.0, 0.0, false) else Spring(p, v, true)
  }

  /** `n` frames of the spring at a fixed frame time; a spring at rest stays at rest. */
  function RunSpring(s: Spring, delta: real, n: nat): (r: Spring)
    ensures !s.active ==> r == s
    ensures r.active ==> s.active && (r == s || r.progress < SnapThreshold)
    ensures s.active && n > 0 ==> -MaxVelocity <= r.velocity <= MaxVelocity
    ensures s.active && !r.active ==> r.progress == 1.0 && r.velocity == 0.0
    decreases n
  {
    if n == 0 || !s.active then s
    else RunSpring(SpringStep(s.progress, s.velocity, delta), delta, n - 1)
  }

  /** A moving spring that has not yet snapped and is not running backwards. */
  predicate Forward(s: Spring) {
    s.active && 0.0 <= s.progress < SnapThreshold && 0.0 <= s.velocity <= MaxVelocity
  }

  /** From a forward spring the clamped velocity is at least 0.06 * delta. */
  lemma ForwardVelocity(s: Spring, delta: real)
    requires Forward(s) && 0.0 < delta <= 0.5
    ensures StepVelocity(s.progress, s.velocity, delta) >= 0.06 * delta
  {
    var raw := s.velocity + ((1.0 - s.progress) * Stiffness - s.velocity * Damping) * delta;
    var carried := s.velocity * (1.0 - 2.0 * delta);
    var pulled := delta * (3.0 * (1.0 - s.progress));
    assert raw == carried + pulled;
    MulNonneg(s.velocity, 1.0 - 2.0 * delta);
    MulLe(delta, 0.06, 3.0 * (1.0 - s.progress));
    assert pulled >= delta * 0.06;
  }

  lemma AtLeast(p: real, gain: real, least: real)
    requires gain >= least
    ensures p + gain >= p + least
  {
  }

  /** The least progress a forward frame makes at frame time `delta`. */
  function MinGain(delta: real): real {
    0.06 * delta * delta
  }

  lemma ScaledGain(v: real, delta: real)
    requires 0.0 < delta && v >= 0.06 * delta
    ensures v * delta >= MinGain(delta) >= 0.0
  {
    MulLe(delta, 0.06 * delta, v);
    MulNonneg(0.06 * delta, delta);
  }

  /**
   * For a frame time of at most half a second, each frame of a forward spring
   * either snaps or stays forward and advances by at least 0.06 * delta^2.
   */
  lemma StepAdvances(s: Spring, delta: real)
    requires Forward(s) && 0.0 < delta <= 0.5
    ensures var n := SpringStep(s.progress, s.velocity, delta);
            !n.active || (Forward(n) && n.progress >= s.progress + MinGain(delta))
  {
    var v := StepVelocity(s.progress, s.velocity, delta);
    ForwardVelocity(s, delta);
    ScaledGain(v, delta);
    var gain, least := v * delta, MinGain(delta);
    var n := SpringStep(s.progress, s.velocity, delta);
    if n.active {
      assert n == Spring(s.progress + gain, v, true);
      AtLeast(s.progress, gain, least);
    }
  }

  /**
   * Convergence: at a fixed frame time 0 < delta <= 0.5, a forward spring
   * (in particular a freshly re-armed one, progress = velocity = 0) is at
   * rest within any n frames with n * 0.06 * delta^2 >= 0.98 - progress.
   */
  lemma {:induction false} SpringSettles(s: Spring, delta: real, n: nat)
    requires Forward(s) && 0.0 < delta <= 0.5
    requires n as real * (0.06 * delta * delta) >= SnapThreshold - s.progress
    ensures !RunSpring(s, delta, n).active
    ensures RunSpring(s, delta, n).progress == 1.0 && RunSpring(s, delta, n).velocity == 0.0
    decreases n
  {
    var next := SpringStep(s.progress, s.velocity, delta);
    StepAdvances(s, delta);
    if n == 0 {
      assert false;
    } else if next.active {
      var c := 0.06 * delta * delta;
      assert (n - 1) as real * c == n as real * c - c;
      SpringSettles(next, delta, n - 1);
    } else {
      assert RunSpring(next, delta, n - 1) == next;
    }
  }

  // ---------------------------------------------------------------------
  // The rig
  // ---------------------------------------------------------------------

  /** The time constant of the idle follow and the field-of-view smoothing. */
  const FollowRate: real := 2.0

  /**
   * The rig's refs and the camera values it writes. `lastLookAt` records
   * the argument of the latest `camera.lookAt` call (None before the first).
   */
  class Rig {
    var current: CameraState
    var previousState: CameraState
    var progress: real
    var velocity: real
    var transitioning: bool
    var previousPos: Vec3
    var previousTarget: Vec3
    var positionSpline: Controls
    var targetSpline: Controls
    var cameraPosition: Vec3
    var cameraFov: real
    var lastLookAt: Option<Vec3>

    /** The refs as the first render creates them, before the re-arm block runs. */
    constructor (toRoute: string, initialPosition: Vec3, initialFov: real)
      ensures current == CameraStateFor(toRoute) && previousState == HomeCamera
      ensures progress == 0.0 && velocity == 0.0 && !transitioning
      ensures previousPos == ToVec(HomeCamera.position) && previousTarget == ToVec(HomeCamera.target)
      ensures positionSpline == GenerateControlPoints(previousPos, ToVec(current.position))
      ensures targetSpline == GenerateControlPoints(previousTarget, ToVec(current.target))
      ensures cameraPosition == initialPosition && cameraFov == initialFov && lastLookAt == None
    {
      current := CameraStateFor(toRoute);
      previousState := HomeCamera;
      progress, velocity, transitioning := 0.0, 0.0, false;
      previousPos := ToVec(HomeCamera.position);
      previousTarget := ToVec(HomeCamera.target);
      positionSpline := GenerateControlPoints(ToVec(HomeCamera.position), ToVec(CameraStateFor(toRoute).position));
      targetSpline := GenerateControlPoints(ToVec(HomeCamera.target), ToVec(CameraStateFor(toRoute).target));
      cameraPosition, cameraFov, lastLookAt := initialPosition, initialFov, None;
    }

    /**
     * A render of the rig: recompute the current table entry, and run the
     * re-arm block when its guard holds. Re-arming copies the NEW target into
     * `previousPos`, so both splines start and end at the new target.
     */
    method Render(toRoute: string)
      modifies this
      ensures current == CameraStateFor(toRoute)
      ensures cameraPosition == old(cameraPosition) && cameraFov == old(cameraFov) && lastLookAt == old(lastLookAt)
      ensures RearmGuard(toRoute, old(previousState), old(transitioning)) ==>
        previousState == current &&
        previousPos == ToVec(current.position) && previousTarget == ToVec(current.target) &&
        progress == 0.0 && velocity == 0.0 && transitioning &&
        positionSpline == GenerateControlPoints(ToVec(current.position), ToVec(current.position)) &&
        targetSpline == GenerateControlPoints(ToVec(current.target), ToVec(current.target))
      ensures !RearmGuard(toRoute, old(previousState), old(transitioning)) ==>
        previousState == old(previousState) && previousPos == old(previousPos) &&
        previousTarget == old(previousTarget) && progress == old(progress) &&
        velocity == old(velocity) && transitioning == old(transitioning) &&
        positionSpline == old(positionSpline) && targetSpline == old(targetSpline)
    {
      var rearm := RearmGuard(toRoute, previousState, transitioning);
      current := CameraStateFor(toRoute);
      if rearm {
        Rearm();
      }
    }

    /** The re-arm block: the splines restart from the current entry. */
    method Rearm()
      modifies this
      ensures current == old(current) && previousState == current
      ensures cameraPosition == old(cameraPosition) && cameraFov == old(cameraFov) && lastLookAt == old(lastLookAt)
      ensures previousPos == ToVec(current.position) && previousTarget == ToVec(current.target)
      ensures progress == 0.0 && velocity == 0.0 && transitioning
      ensures positionSpline == GenerateControlPoints(ToVec(current.position), ToVec(current.position))
      ensures targetSpline == GenerateControlPoints(ToVec(current.target), ToVec(current.target))
    {
      var pos, tgt := ToVec(current.position), ToVec(current.target);
      previousState, previousPos, previousTarget := current, pos, tgt;
      progress, velocity, transitioning := 0.0, 0.0, true;
      positionSpline := GenerateControlPoints(previousPos, pos);
      targetSpline := GenerateControlPoints(previousTarget, tgt);
    }

    /**
     * The per-frame callback. While transitioning: one spring step, then
     * the camera is placed on the position spline at the eased progress and
     * pointed at the target spline. Otherwise: the camera follows the current
     * position by the fraction 2 * delta. The field of view of a perspective
     * camera is smoothed toward the current entry's in both cases.
     */
    method Frame(delta: real, perspective: bool)
      modifies this
      ensures current == old(current) && previousState == old(previousState)
      ensures previousPos == old(previousPos) && previousTarget == old(previousTarget)
      ensures positionSpline == old(positionSpline) && targetSpline == old(targetSpline)
      ensures old(transitioning) ==>
        Spring(progress, velocity, transitioning) == SpringStep(old(progress), old(velocity), delta) &&
        cameraPosition == CubicSpline(Smoothstep(progress), positionSpline) &&
        lastLookAt == Some(CubicSpline(Smoothstep(progress), targetSpline))
      ensures !old(transitioning) ==>
        progress == old(progress) && velocity == old(velocity) && !transitioning &&
        cameraPosition == VLerp(old(cameraPosition), ToVec(current.position), delta * FollowRate) &&
        lastLookAt == Some(ToVec(current.target))
      ensures cameraFov == if perspective then Lerp(old(cameraFov), current.fov as real, delta * FollowRate) else old(cameraFov)
      ensures -MaxVelocity <= velocity <= MaxVelocity || (!old(transitioning) && velocity == old(velocity))
    {
      var fov := cameraFov;
      if perspective {
        fov := Lerp(cameraFov, current.fov as real, delta * FollowRate);
      }
      if transitioning {
        var error := 1.0 - progress;
        var acceleration := error * Stiffness - velocity * Damping;
        var v := velocity + acceleration * delta;
        assert v == RawVelocity(progress, velocity, delta);
        v := Max(Min(v, MaxVelocity), -MaxVelocity);
        assert v == StepVelocity(progress, velocity, delta);
        var p := progress + v * delta;
        var active := true;
        assert p == progress + StepVelocity(progress, velocity, delta) * delta;
        if p >= SnapThreshold {
          assert SpringStep(progress, velocity, delta) == Spring(1.0, 0.0, false);
          p, v, active := 1.0, 0.0, false;
        } else {
          assert SpringStep(progress, velocity, delta) == Spring(p, v, true);
        }
        var smoothT := Smoothstep(p);
        var position := CubicSpline(smoothT, positionSpline);
        var lookAt := CubicSpline(smoothT, targetSpline);
        progress, velocity, transitioning := p, v, active;
        cameraPosition, lastLookAt := position, Some(lookAt);
      } else {
        cameraPosition := VLerp(cameraPosition, ToVec(current.position), delta * FollowRate);
        lastLookAt := Some(ToVec(current.target));
      }
      cameraFov := fov;
    }
  }

  function Min(a: real, b: real): real { if a < b then a else b }
  function Max(a: real, b: real): real { if a > b then a else b }

  /**
   * What a re-arm leads to: the spline for a re-armed target e samples e
   * lifted by 2 on y at both ends of the parameter range.
   */
  lemma RearmedEndpoints(target: Coord3)
    ensures var c := GenerateControlPoints(ToVec(target), ToVec(target));
            CubicSpline(0.0, c) == Add(ToVec(target), ArcOffset) &&
            CubicSpline(1.0, c) == Add(ToVec(target), ArcOffset)
  {
  }
}
