/** The chase camera of src/engine/camera.ts: every frame it moves a fraction of the way
    toward a point behind and above the aircraft, looks toward a point ahead of it and turns
    its up vector toward the aircraft's. */
module Camera {
  import opened MathKernel
  import opened Aircraft

  datatype CameraState = CameraState(
    position: Vec3,
    target: Vec3,
    up: Vec3,
    fov: real,
    near: real,
    far: real)

  const Distance: real := 15.0
  const Height: real := 5.0
  const Smoothing: real := 5.0
  const LookAhead: real := 20.0

  /** createCamera: five units above and twenty behind (+z) the aircraft's starting point,
      looking at that point, with a level up vector and a frustum of 60 degrees from 0.5
      to 5000. */
  function CreateCamera(): (c: CameraState)
    ensures c.position == Vec3(0.0, 105.0, 20.0) && c.target == Vec3(0.0, 100.0, 0.0)
    ensures c.up == Vec3(0.0, 1.0, 0.0)
    ensures c.fov == Pi / 3.0 && c.near == 0.5 && c.far == 5000.0
  {
    CameraState(Vec3(0.0, 105.0, 20.0), Vec3(0.0, 100.0, 0.0), Vec3(0.0, 1.0, 0.0),
                Pi / 3.0, 0.5, 5000.0)
  }

  /** The smoothing factor 1 - exp(-5 dt). */
  function SmoothFactor(deltaTime: real, exp: real -> real): real {
    1.0 - exp(-Smoothing * deltaTime)
  }

  /** a + s * (b - a), the interpolation step used three times by updateCamera. */
  function Lerp(a: Vec3, b: Vec3, s: real): Vec3 {
    Add(a, Scale(Sub(b, a), s))
  }

  /** The ideal position: Distance behind the aircraft along its forward vector and Height
      above it along its up vector. */
  function IdealPosition(aircraftPosition: Vec3, forward: Vec3, aircraftUp: Vec3): Vec3 {
    Add(Add(aircraftPosition, Scale(forward, -Distance)), Scale(aircraftUp, Height))
  }

  /** The ideal target: LookAhead units ahead of the aircraft. */
  function IdealTarget(aircraftPosition: Vec3, forward: Vec3): Vec3 {
    Add(aircraftPosition, Scale(forward, LookAhead))
  }

  /** The up vector before normalisation: the old up moved f / 2 of the way toward the
      aircraft's. */
  function RawUp(up: Vec3, aircraftUp: Vec3, f: real): Vec3 {
    Lerp(up, aircraftUp, f * 0.5)
  }

  /** The body of updateCamera for a given smoothing factor f and the aircraft's position,
      forward and up vectors. Only position, target and up are rewritten. */
  function Follow(camera: CameraState, aircraftPosition: Vec3, forward: Vec3, aircraftUp: Vec3,
                  f: real, sqrt: real -> real): (r: CameraState)
    ensures r.fov == camera.fov && r.near == camera.near && r.far == camera.far
  {
    var rawUp := RawUp(camera.up, aircraftUp, f);
    camera.(
      position := Lerp(camera.position, IdealPosition(aircraftPosition, forward, aircraftUp), f),
      target := Lerp(camera.target, IdealTarget(aircraftPosition, forward), f * 1.5),
      up := if Length(rawUp, sqrt) > 0.01 then Normalize(rawUp, sqrt) else Vec3(0.0, 1.0, 0.0))
  }

  /** updateCamera. */
  function UpdateCamera(camera: CameraState, aircraft: AircraftState, deltaTime: real,
                        t: Transcendentals): (r: CameraState)
    ensures r.fov == camera.fov && r.near == camera.near && r.far == camera.far
  {
    Follow(camera, aircraft.position, ForwardVector(aircraft, t.sqrt), UpVector(aircraft, t.sqrt),
           SmoothFactor(deltaTime, t.exp), t.sqrt)
  }

  // ---------------------------------------------------------------- properties

  /** Each coordinate of p lies between the same coordinates of a and b. */
  predicate Between(a: Vec3, b: Vec3, p: Vec3) {
    && Min(a.x, b.x) <= p.x <= Max(a.x, b.x)
    && Min(a.y, b.y) <= p.y <= Max(a.y, b.y)
    && Min(a.z, b.z) <= p.z <= Max(a.z, b.z)
  }

  /** For a non-negative frame time the smoothing factor lies in [0, 1). */
  lemma SmoothFactorInRange(deltaTime: real, t: Transcendentals)
    requires Lawful(t) && 0.0 <= deltaTime
    ensures 0.0 <= SmoothFactor(deltaTime, t.exp) < 1.0
  {
    var e := -Smoothing * deltaTime;
    assert e <= 0.0;
    assert t.exp(e) <= 1.0;
    assert 0.0 < t.exp(e);
  }

  /** One interpolation step with s in [0, 1] stays between its end points coordinate by
      coordinate, and leaves the fraction 1 - s of the gap still to go. */
  lemma LerpStep(a: Vec3, b: Vec3, s: real)
    ensures Sub(b, Lerp(a, b, s)) == Scale(Sub(b, a), 1.0 - s)
    ensures 0.0 <= s <= 1.0 ==> Between(a, b, Lerp(a, b, s))
  {
    var l := Lerp(a, b, s);
    GapScales(a.x, b.x, s);
    GapScales(a.y, b.y, s);
    GapScales(a.z, b.z, s);
    if 0.0 <= s <= 1.0 {
      StepBetween(a.x, b.x, s);
      StepBetween(a.y, b.y, s);
      StepBetween(a.z, b.z, s);
    }
  }

  lemma GapScales(a: real, b: real, s: real)
    ensures b - (a + (b - a) * s) == (b - a) * (1.0 - s)
  {
  }

  lemma StepBetween(a: real, b: real, s: real)
    requires 0.0 <= s <= 1.0
    ensures Min(a, b) <= a + (b - a) * s <= Max(a, b)
  {
    var step := a + (b - a) * s;
    GapScales(a, b, s);
    if a <= b {
      MulNonNegative(b - a, s);
      MulNonNegative(b - a, 1.0 - s);
      assert a <= step && step <= b;
      assert Min(a, b) == a && Max(a, b) == b;
    } else {
      MulNonNegative(a - b, s);
      MulNonNegative(a - b, 1.0 - s);
      NegateProduct(a, b, s);
      NegateProduct(a, b, 1.0 - s);
      assert b <= step && step <= a;
      assert Min(a, b) == b && Max(a, b) == a;
    }
  }

  lemma NegateProduct(a: real, b: real, s: real)
    ensures (b - a) * s == -((a - b) * s)
  {
  }

  /** The position moves toward the ideal position: it stays between the old position and
      the ideal one, and the remaining gap is the old gap scaled by 1 - f. */
  lemma PositionApproachesIdeal(camera: CameraState, aircraftPosition: Vec3, forward: Vec3,
                                aircraftUp: Vec3, f: real, sqrt: real -> real)
    requires 0.0 <= f <= 1.0
    ensures var ideal := IdealPosition(aircraftPosition, forward, aircraftUp);
      var r := Follow(camera, aircraftPosition, forward, aircraftUp, f, sqrt);
      && Between(camera.position, ideal, r.position)
      && Sub(ideal, r.position) == Scale(Sub(ideal, camera.position), 1.0 - f)
  {
    LerpStep(camera.position, IdealPosition(aircraftPosition, forward, aircraftUp), f);
  }

  /** The target moves 1.5 f of the way toward the point ahead of the aircraft, so the gap
      left is the old one scaled by 1 - 1.5 f. */
  lemma TargetApproachesIdeal(camera: CameraState, aircraftPosition: Vec3, forward: Vec3,
                              aircraftUp: Vec3, f: real, sqrt: real -> real)
    ensures var ideal := IdealTarget(aircraftPosition, forward);
      var r := Follow(camera, aircraftPosition, forward, aircraftUp, f, sqrt);
      Sub(ideal, r.target) == Scale(Sub(ideal, camera.target), 1.0 - f * 1.5)
  {
    LerpStep(camera.target, IdealTarget(aircraftPosition, forward), f * 1.5);
  }

  /** The new up vector is the normalised raw up when that is longer than 0.01 and exactly
      (0, 1, 0) otherwise; either way it has unit length. */
  lemma UpIsUnit(camera: CameraState, aircraftPosition: Vec3, forward: Vec3,
                 aircraftUp: Vec3, f: real, sqrt: real -> real)
    requires IsSqrt(sqrt)
    ensures var rawUp := RawUp(camera.up, aircraftUp, f);
      var r := Follow(camera, aircraftPosition, forward, aircraftUp, f, sqrt);
      && (Length(rawUp, sqrt) <= 0.01 ==> r.up == Vec3(0.0, 1.0, 0.0))
      && (Length(rawUp, sqrt) > 0.01 ==> r.up == Normalize(rawUp, sqrt))
      && Dot(r.up, r.up) == 1.0
  {
    var rawUp := RawUp(camera.up, aircraftUp, f);
    LengthZero(rawUp, sqrt);
    NormalizeSpec(rawUp, sqrt);
  }

  /** With f = 0 nothing moves: a camera whose up vector has unit length is unchanged. */
  lemma FollowAtZeroFactor(camera: CameraState, aircraftPosition: Vec3, forward: Vec3,
                           aircraftUp: Vec3, sqrt: real -> real)
    requires IsSqrt(sqrt) && Dot(camera.up, camera.up) == 1.0
    ensures Follow(camera, aircraftPosition, forward, aircraftUp, 0.0, sqrt) == camera
  {
    assert RawUp(camera.up, aircraftUp, 0.0) == camera.up;
    UnitLength(camera.up, sqrt);
    NormalizeOfUnit(camera.up, sqrt);
  }

  /** A camera already at the ideal position and target, whose up vector is the aircraft's
      unit up vector, is a fixed point of the update for every smoothing factor. */
  lemma FixedPoint(camera: CameraState, aircraftPosition: Vec3, forward: Vec3,
                   aircraftUp: Vec3, f: real, sqrt: real -> real)
    requires IsSqrt(sqrt)
    requires camera.position == IdealPosition(aircraftPosition, forward, aircraftUp)
    requires camera.target == IdealTarget(aircraftPosition, forward)
    requires camera.up == aircraftUp && Dot(aircraftUp, aircraftUp) == 1.0
    ensures Follow(camera, aircraftPosition, forward, aircraftUp, f, sqrt) == camera
  {
    assert RawUp(camera.up, aircraftUp, f) == camera.up;
    UnitLength(camera.up, sqrt);
    NormalizeOfUnit(camera.up, sqrt);
  }

  /** updateCamera for a non-negative frame time: the position ends between the old
      position and the ideal one, with a gap scaled by a factor in (0, 1], and the up
      vector has unit length. */
  lemma UpdateCameraApproaches(camera: CameraState, aircraft: AircraftState, deltaTime: real,
                               t: Transcendentals)
    requires Lawful(t) && 0.0 <= deltaTime
    ensures var forward, aircraftUp := ForwardVector(aircraft, t.sqrt), UpVector(aircraft, t.sqrt);
      var ideal := IdealPosition(aircraft.position, forward, aircraftUp);
      var r := UpdateCamera(camera, aircraft, deltaTime, t);
      var k := 1.0 - SmoothFactor(deltaTime, t.exp);
      && 0.0 < k <= 1.0
      && Between(camera.position, ideal, r.position)
      && Sub(ideal, r.position) == Scale(Sub(ideal, camera.position), k)
      && Dot(r.up, r.up) == 1.0
  {
    var forward, aircraftUp := ForwardVector(aircraft, t.sqrt), UpVector(aircraft, t.sqrt);
    var f := SmoothFactor(deltaTime, t.exp);
    assert UpdateCamera(camera, aircraft, deltaTime, t)
      == Follow(camera, aircraft.position, forward, aircraftUp, f, t.sqrt);
    SmoothFactorInRange(deltaTime, t);
    PositionApproachesIdeal(camera, aircraft.position, forward, aircraftUp, f, t.sqrt);
    UpIsUnit(camera, aircraft.position, forward, aircraftUp, f, t.sqrt);
  }
}
