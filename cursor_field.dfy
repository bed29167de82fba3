/**
 * The cursor force-field engine: it turns pointer events into normalized
 * device coordinates, a finite-difference velocity and a stored field
 * record, and derives from that record the force a surface point feels.
 * The picking ray, distances, normalisation and vector lengths come from
 * the 3D library and are inputs here.
 */
module CursorField {
  import opened Vectors
  import opened Options

  datatype FieldKind = Attract | Repel | Shear

  /** The public per-event record of the engine. */
  datatype CursorFieldData = CursorFieldData(
    worldPosition: Vec3,
    worldDirection: Vec3,
    screenPosition: Vec2,
    isPressed: bool,
    velocity: Vec2,
    timestamp: real)

  datatype ForceField = ForceField(position: Vec3, strength: real, radius: real, kind: FieldKind)

  /** The canvas's bounding client rectangle. */
  datatype Rect = Rect(left: real, top: real, width: real, height: real)

  /** The picking ray the raycaster derives from the camera and the pointer. */
  datatype Ray = Ray(origin: Vec3, direction: Vec3)

  const MaxDistance: real := 10.0
  const Softening: real := 0.1
  const MaxStrength: real := 5.0
  const VelocityInfluence: real := 0.1

  const EmptyField: CursorFieldData := CursorFieldData(Zero3, Zero3, Zero2, false, Zero2, 0.0)

  /**
   * The horizontal device coordinate of a client x. Its inverse recovers the
   * client coordinate from it, so distinct points stay distinct.
   */
  function NdcX(clientX: real, rect: Rect): (x: real)
    requires rect.width != 0.0
    ensures rect.left + (x + 1.0) / 2.0 * rect.width == clientX
  {
    ((clientX - rect.left) / rect.width) * 2.0 - 1.0
  }

  /** The vertical device coordinate of a client y: up is positive, so the axis flips. */
  function NdcY(clientY: real, rect: Rect): (y: real)
    requires rect.height != 0.0
    ensures rect.top + (1.0 - y) / 2.0 * rect.height == clientY
  {
    -((clientY - rect.top) / rect.height) * 2.0 + 1.0
  }

  /**
   * A point inside a non-degenerate rectangle lands in the square [-1, 1]^2,
   * with the left edge at x = -1, the right edge at x = 1, the top edge at
   * y = 1 and the bottom edge at y = -1.
   */
  lemma NdcInRange(clientX: real, clientY: real, rect: Rect)
    requires rect.width > 0.0 && rect.height > 0.0
    ensures rect.left <= clientX <= rect.left + rect.width ==> -1.0 <= NdcX(clientX, rect) <= 1.0
    ensures rect.top <= clientY <= rect.top + rect.height ==> -1.0 <= NdcY(clientY, rect) <= 1.0
    ensures NdcX(rect.left, rect) == -1.0 && NdcX(rect.left + rect.width, rect) == 1.0
    ensures NdcY(rect.top, rect) == 1.0 && NdcY(rect.top + rect.height, rect) == -1.0
  {
    var fx := (clientX - rect.left) / rect.width;
    var fy := (clientY - rect.top) / rect.height;
    if rect.left <= clientX <= rect.left + rect.width {
      UnitQuotient(fx, clientX - rect.left, rect.width);
    }
    if rect.top <= clientY <= rect.top + rect.height {
      UnitQuotient(fy, clientY - rect.top, rect.height);
    }
    assert NdcX(rect.left + rect.width, rect) == 1.0 by {
      assert rect.left + rect.width - rect.left == rect.width;
      DivSelf(rect.width);
    }
    assert NdcY(rect.top + rect.height, rect) == -1.0 by {
      assert rect.top + rect.height - rect.top == rect.height;
      DivSelf(rect.height);
    }
  }

  /** A quotient of a number in [0, den] by den lies in [0, 1]. */
  lemma UnitQuotient(q: real, num: real, den: real)
    requires 0.0 < den && 0.0 <= num <= den && q == num / den
    ensures 0.0 <= q <= 1.0
  {
    var rest := (den - num) / den;
    DivNonneg(num, den);
    DivNonneg(den - num, den);
    assert q * den == num && rest * den == den - num;
    assert (q + rest - 1.0) * den == q * den + rest * den - den;
    assert q + rest == 1.0;
  }

  /**
   * The velocity after an event: the displacement over the elapsed seconds
   * when time has advanced, and the previous velocity otherwise.
   */
  function NextVelocity(velocity: Vec2, mouse: Vec2, previousMouse: Vec2, deltaTime: real): (v: Vec2)
    ensures deltaTime > 0.0 ==> v.x * deltaTime == mouse.x - previousMouse.x && v.y * deltaTime == mouse.y - previousMouse.y
    ensures deltaTime <= 0.0 ==> v == velocity
  {
    if deltaTime > 0.0 then
      Vec2((mouse.x - previousMouse.x) / deltaTime, (mouse.y - previousMouse.y) / deltaTime)
    else velocity
  }

  /** A pointer that has not moved has zero velocity, however much time passed. */
  lemma StillPointerHasNoVelocity(velocity: Vec2, mouse: Vec2, deltaTime: real)
    requires deltaTime > 0.0
    ensures NextVelocity(velocity, mouse, mouse, deltaTime) == Zero2
  {
  }

  /** `Math.min(1 / (d^2 + 0.1) * coefficient, 5)`. */
  function Strength(distance: real, coefficient: real): (s: real)
    ensures distance * distance + Softening > 0.0
    ensures s <= MaxStrength
    ensures coefficient >= 0.0 ==> s >= 0.0
    ensures s == MaxStrength || s * (distance * distance + Softening) == coefficient
    ensures coefficient >= MaxStrength * (distance * distance + Softening) ==> s == MaxStrength
    ensures coefficient < MaxStrength * (distance * distance + Softening) ==> s * (distance * distance + Softening) == coefficient
  {
    var dd := distance * distance;
    assert dd >= 0.0 by {
      SquareNonneg(distance);
    }
    var raw := (1.0 / (dd + Softening)) * coefficient;
    assert raw * (dd + Softening) == coefficient;
    assert coefficient >= 0.0 ==> raw >= 0.0 by {
      if coefficient >= 0.0 {
        MulNonneg(1.0 / (dd + Softening), coefficient);
      }
    }
    assert coefficient >= MaxStrength * (dd + Softening) ==> raw >= MaxStrength by {
      if coefficient >= MaxStrength * (dd + Softening) {
        MulLe(1.0 / (dd + Softening), MaxStrength * (dd + Softening), coefficient);
      }
    }
    assert coefficient < MaxStrength * (dd + Softening) ==> raw < MaxStrength by {
      if coefficient < MaxStrength * (dd + Softening) && raw >= MaxStrength {
        MulLe(dd + Softening, MaxStrength, raw);
        assert false;
      }
    }
    if raw < MaxStrength then raw else MaxStrength
  }

  lemma DivSelf(x: real)
    requires x != 0.0
    ensures x / x == 1.0
  {
  }

  /** Of two quotients of the same non-negative number, the one by the larger divisor is the smaller. */
  lemma SmallerQuotient(s1: real, s2: real, a: real, b: real, c: real)
    requires 0.0 < a <= b && 0.0 <= s2
    requires s1 * a == c && s2 * b == c
    ensures s2 <= s1
  {
    MulLe(s2, a, b);
    assert (s2 - s1) * a == s2 * a - s1 * a;
    assert (s2 - s1) * a <= 0.0;
    if s2 > s1 {
      MulPos(s2 - s1, a);
      assert false;
    }
  }

  /** Closer points feel at least as strong a pull, for a non-negative coefficient. */
  lemma StrengthDecreasesWithDistance(d1: real, d2: real, coefficient: real)
    requires 0.0 <= d1 <= d2 && coefficient >= 0.0
    ensures Strength(d1, coefficient) >= Strength(d2, coefficient)
  {
    var a, b := d1 * d1 + Softening, d2 * d2 + Softening;
    SquareMonotone(d1, d2);
    var s1, s2 := Strength(d1, coefficient), Strength(d2, coefficient);
    if s1 < MaxStrength && s2 < MaxStrength {
      SmallerQuotient(s1, s2, a, b, coefficient);
    }
  }

  /**
   * `calculateForceField` over the stored record. `distance` stands for the
   * distance from the ray origin to the surface point, `direction` for the
   * normalized vector from the origin to the point, and `speed` for the
   * length of the stored velocity.
   */
  function FieldAt(field: CursorFieldData, distance: real, direction: Vec3, speed: real, coefficient: real): (f: ForceField)
    ensures distance > MaxDistance ==> f == ForceField(Zero3, 0.0, 0.0, Attract)
    ensures distance <= MaxDistance ==>
      f.strength == Strength(distance, coefficient) &&
      f.radius >= 1.0 && f.radius >= distance && (f.radius == 1.0 || f.radius == distance) &&
      (f.kind == Repel <==> field.isPressed) && f.kind != Shear &&
      f.position.z == direction.z &&
      f.position.x == direction.x + field.velocity.x * (speed * VelocityInfluence) &&
      f.position.y == direction.y + field.velocity.y * (speed * VelocityInfluence)
  {
    if distance > MaxDistance then
      ForceField(Zero3, 0.0, 0.0, Attract)
    else
      var influence := speed * VelocityInfluence;
      var position := Vec3(direction.x + field.velocity.x * influence, direction.y + field.velocity.y * influence, direction.z);
      ForceField(position, Strength(distance, coefficient), if 1.0 > distance then 1.0 else distance, if field.isPressed then Repel else Attract)
  }

  /** Within the influence radius the field never exceeds the clamp and is never inside radius 1. */
  lemma FieldBounded(field: CursorFieldData, distance: real, direction: Vec3, speed: real, coefficient: real)
    requires coefficient >= 0.0
    ensures 0.0 <= FieldAt(field, distance, direction, speed, coefficient).strength <= MaxStrength
    ensures distance > MaxDistance <==> FieldAt(field, distance, direction, speed, coefficient).radius == 0.0
  {
  }

  /** The named interaction coefficients of the scene's systems. */
  datatype System = CodeLattice | NeuralStream | PacketRails

  function InteractionCoefficient(s: System): (c: real)
    ensures 0.0 < c <= 1.0
  {
    match s
    case CodeLattice => 0.2
    case NeuralStream => 1.0
    case PacketRails => 0.5
  }

  /** The table ranks the systems low, medium, high: lattice < rails < stream. */
  lemma CoefficientOrder()
    ensures InteractionCoefficient(CodeLattice) < InteractionCoefficient(PacketRails) < InteractionCoefficient(NeuralStream)
  {
  }

  /** `intersects.length > 0 ? intersects[0] : null` over the raycaster's hit list, nearest first. */
  function FirstHit<T>(hits: seq<T>): (r: Option<T>)
    ensures r.None? <==> hits == []
    ensures r.Some? ==> r.value == hits[0]
  {
    if |hits| > 0 then Some(hits[0]) else None
  }

  /**
   * The raycaster lists its hits nearest first; over such a list the hit
   * returned is at least as near as every hit, and is absent only when the
   * ray hits nothing.
   */
  lemma FirstHitIsNearest<T>(hits: seq<T>, dist: T -> real)
    requires forall i, j :: 0 <= i <= j < |hits| ==> dist(hits[i]) <= dist(hits[j])
    ensures FirstHit(hits).None? <==> hits == []
    ensures FirstHit(hits).Some? ==> FirstHit(hits).value in hits
    ensures FirstHit(hits).Some? ==> forall h :: h in hits ==> dist(FirstHit(hits).value) <= dist(h)
  {
  }

  class CursorFieldEngine {
    var mouse: Vec2
    var previousMouse: Vec2
    var lastUpdateTime: real
    var currentField: CursorFieldData

    constructor ()
      ensures mouse == Zero2 && previousMouse == Zero2 && lastUpdateTime == 0.0
      ensures currentField == EmptyField
    {
      mouse := Zero2;
      previousMouse := Zero2;
      lastUpdateTime := 0.0;
      currentField := EmptyField;
    }

    /**
     * A pointer event at `currentTime` milliseconds, for the canvas rectangle
     * `rect`; `ray` is the picking ray the raycaster computes for the new
     * device coordinates.
     */
    method Update(clientX: real, clientY: real, isPressed: bool, rect: Rect, currentTime: real, ray: Ray)
      requires rect.width != 0.0 && rect.height != 0.0
      modifies this
      ensures lastUpdateTime == currentTime
      ensures mouse == Vec2(NdcX(clientX, rect), NdcY(clientY, rect))
      ensures previousMouse == mouse
      ensures currentField == CursorFieldData(
        ray.origin, ray.direction, mouse, isPressed,
        NextVelocity(old(currentField.velocity), mouse, old(previousMouse), (currentTime - old(lastUpdateTime)) / 1000.0),
        currentTime)
    {
      var deltaTime := (currentTime - lastUpdateTime) / 1000.0;
      lastUpdateTime := currentTime;
      mouse := Vec2(((clientX - rect.left) / rect.width) * 2.0 - 1.0, -((clientY - rect.top) / rect.height) * 2.0 + 1.0);
      if deltaTime > 0.0 {
        var velocity := Vec2((mouse.x - previousMouse.x) / deltaTime, (mouse.y - previousMouse.y) / deltaTime);
        currentField := currentField.(velocity := velocity);
      }
      currentField := currentField.(screenPosition := mouse, worldPosition := ray.origin,
                                    worldDirection := ray.direction, isPressed := isPressed, timestamp := currentTime);
      previousMouse := mouse;
    }

    /** The force on a surface point, from the stored record. */
    function CalculateForceField(distance: real, direction: Vec3, speed: real, coefficient: real): (f: ForceField)
      reads this
      ensures distance > MaxDistance ==> f.strength == 0.0 && f.radius == 0.0 && f.kind == Attract
      ensures distance <= MaxDistance ==> f.strength == Strength(distance, coefficient) && f.radius >= 1.0
      ensures f.kind == Repel <==> distance <= MaxDistance && currentField.isPressed
      ensures coefficient >= 0.0 ==> 0.0 <= f.strength <= MaxStrength
    {
      FieldAt(currentField, distance, direction, speed, coefficient)
    }
  }
}
