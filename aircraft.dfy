/** The aircraft state and its per-frame integrator (src/engine/aircraft.ts). The orientation is
    rebuilt every frame from Euler angles through the runtime's quatFromEuler, which stays
    abstract; everything else is modelled exactly. */
module Aircraft {
  import opened MathKernel

  datatype AircraftState = AircraftState(
    position: Vec3,
    rotation: Quat,
    velocity: Vec3,
    pitch: real,
    yaw: real,
    roll: real,
    throttle: real)

  /** The InputState record that updateAircraft reads: one flag per control. */
  datatype Controls = Controls(
    forward: bool,
    backward: bool,
    left: bool,
    right: bool,
    rollLeft: bool,
    rollRight: bool,
    throttleUp: bool,
    throttleDown: bool)

  const PitchRate: real := 1.5
  const YawRate: real := 1.0
  const RollRate: real := 2.5
  const MinSpeed: real := 20.0
  const MaxSpeed: real := 150.0
  const ThrottleAccel: real := 0.5

  /** The pitch clamp of updateAircraft: pitch stays within PitchLimit of level. */
  const PitchLimit: real := Pi / 2.0 - 0.1
  /** The auto-bank limit of updateAircraft. */
  const BankLimit: real := Pi / 3.0

  /** The scalar envelope every state of a running flight stays in. */
  predicate InEnvelope(a: AircraftState) {
    && 0.0 <= a.throttle <= 1.0
    && -PitchLimit <= a.pitch <= PitchLimit
  }

  function CreateAircraft(t: Transcendentals): (a: AircraftState)
    ensures a.position == Vec3(0.0, 100.0, 0.0) && a.velocity == Vec3(0.0, 0.0, -MinSpeed)
    ensures a.pitch == 0.0 && a.yaw == 0.0 && a.roll == 0.0 && a.throttle == 0.3
    ensures a.rotation == t.quatFromEuler(0.0, 0.0, 0.0)
    ensures InEnvelope(a)
  {
    AircraftState(Vec3(0.0, 100.0, 0.0), t.quatFromEuler(0.0, 0.0, 0.0), Vec3(0.0, 0.0, -MinSpeed),
                  0.0, 0.0, 0.0, 0.3)
  }

  /** Math.max(-PI/2 + 0.1, Math.min(PI/2 - 0.1, p)). */
  function ClampPitch(p: real): (r: real)
    ensures -PitchLimit <= r <= PitchLimit
    ensures -PitchLimit <= p <= PitchLimit ==> r == p
    ensures p > PitchLimit ==> r == PitchLimit
    ensures p < -PitchLimit ==> r == -PitchLimit
  {
    Max(-Pi / 2.0 + 0.1, Min(Pi / 2.0 - 0.1, p))
  }

  /** The speed updateAircraft derives from the throttle. */
  function SpeedFor(throttle: real): (s: real)
    ensures 0.0 <= throttle <= 1.0 ==> MinSpeed <= s <= MaxSpeed
    ensures throttle == 0.0 ==> s == MinSpeed
    ensures throttle == 1.0 ==> s == MaxSpeed
  {
    MinSpeed + (MaxSpeed - MinSpeed) * throttle
  }

  /** The unit vector along -(third column) of a rotation, as both updateAircraft and
      getForwardVector compute it. */
  function ForwardOf(rotation: Quat, sqrt: real -> real): Vec3 {
    var rotMat := QuatToMat4(rotation);
    Normalize(Vec3(-rotMat[8], -rotMat[9], -rotMat[10]), sqrt)
  }

  /** The four scalar locals of updateAircraft once its key handling, clamps and damping
      have run. */
  datatype Attitude = Attitude(pitch: real, yaw: real, roll: real, throttle: real)

  /** The first half of updateAircraft: pitch, yaw, roll and throttle reassigned in source
      order from the held keys. cos is the runtime's Math.cos. */
  function Steer(state: AircraftState, input: Controls, deltaTime: real, cos: real -> real)
    : Attitude
  {
    var pitch0 := if input.forward then state.pitch + PitchRate * deltaTime else state.pitch;
    var pitch1 := if input.backward then pitch0 - PitchRate * deltaTime else pitch0;

    var yawInfluence := cos(state.roll) * 0.5 + 0.5;
    var yaw0 := if input.left then state.yaw + YawRate * deltaTime * yawInfluence else state.yaw;
    var yaw1 := if input.right then yaw0 - YawRate * deltaTime * yawInfluence else yaw0;

    var roll0 := if input.rollLeft then state.roll - RollRate * deltaTime else state.roll;
    var roll1 := if input.rollRight then roll0 + RollRate * deltaTime else roll0;

    var roll2 := if input.left then Min(roll1 + RollRate * 0.3 * deltaTime, Pi / 3.0) else roll1;
    var roll3 := if input.right then Max(roll2 - RollRate * 0.3 * deltaTime, -Pi / 3.0) else roll2;

    var throttle0 :=
      if input.throttleUp then Min(state.throttle + ThrottleAccel * deltaTime, 1.0)
      else state.throttle;
    var throttle1 :=
      if input.throttleDown then Max(throttle0 - ThrottleAccel * deltaTime, 0.0)
      else throttle0;

    var pitch := ClampPitch(pitch1);

    var roll :=
      if !input.rollLeft && !input.rollRight && !input.left && !input.right then roll3 * 0.97
      else roll3;
    Attitude(pitch, yaw1, roll, throttle1)
  }

  /** updateAircraft: Steer, then Fly from the current position. */
  function UpdateAircraft(state: AircraftState, input: Controls, deltaTime: real,
                          t: Transcendentals): AircraftState
  {
    Fly(state.position, Steer(state, input, deltaTime, t.cos), deltaTime, t)
  }

  /** The second half of updateAircraft: the orientation rebuilt from the Euler angles, the
      velocity along the new forward vector at the throttle's speed, and the position step. */
  function Fly(position: Vec3, a: Attitude, deltaTime: real, t: Transcendentals): AircraftState {
    var rotation := QuatNormalize(t.quatFromEuler(a.pitch, a.yaw, a.roll), t.sqrt);
    var forward := ForwardOf(rotation, t.sqrt);
    var speed := SpeedFor(a.throttle);
    var velocity := Scale(forward, speed);
    AircraftState(Add(position, Scale(velocity, deltaTime)), rotation, velocity,
                  a.pitch, a.yaw, a.roll, a.throttle)
  }

  /** getForwardVector. */
  function ForwardVector(state: AircraftState, sqrt: real -> real): Vec3 {
    ForwardOf(state.rotation, sqrt)
  }

  /** getUpVector: the normalized second column of the rotation matrix. */
  function UpVector(state: AircraftState, sqrt: real -> real): Vec3 {
    var rotMat := QuatToMat4(state.rotation);
    Normalize(Vec3(rotMat[4], rotMat[5], rotMat[6]), sqrt)
  }

  /** getRightVector: the normalized first column of the rotation matrix. */
  function RightVector(state: AircraftState, sqrt: real -> real): Vec3 {
    var rotMat := QuatToMat4(state.rotation);
    Normalize(Vec3(rotMat[0], rotMat[1], rotMat[2]), sqrt)
  }

  /** getAircraftMatrix: the rotation matrix with the position written into entries 12-14. */
  method GetAircraftMatrix(state: AircraftState) returns (r: Mat4)
    ensures forall k :: 0 <= k < 12 ==> r[k] == QuatToMat4(state.rotation)[k]
    ensures r[12] == state.position.x && r[13] == state.position.y && r[14] == state.position.z
    ensures r[15] == 1.0
    ensures r[3] == 0.0 && r[7] == 0.0 && r[11] == 0.0
  {
    var rotation := QuatToMat4(state.rotation);
    var rotMat := new real[16](k requires 0 <= k < 16 => rotation[k]);
    rotMat[12] := state.position.x;
    rotMat[13] := state.position.y;
    rotMat[14] := state.position.z;
    QuatToMat4Affine(state.rotation);
    r := rotMat[..];
  }

  // ---------------------------------------------------------------- properties of the step

  /** The throttle stays in [0, 1]; the keys move it by ThrottleAccel per second, saturating. */
  lemma ThrottleStaysInRange(state: AircraftState, input: Controls, dt: real, cos: real -> real)
    requires 0.0 <= state.throttle <= 1.0 && 0.0 <= dt
    ensures var next := Steer(state, input, dt, cos);
      && 0.0 <= next.throttle <= 1.0
      && (!input.throttleUp && !input.throttleDown ==> next.throttle == state.throttle)
      && (input.throttleUp && !input.throttleDown ==>
            next.throttle == Min(state.throttle + ThrottleAccel * dt, 1.0))
      && (input.throttleDown && !input.throttleUp ==>
            next.throttle == Max(state.throttle - ThrottleAccel * dt, 0.0))
  {
  }

  /** Whatever the input and the time step, the new pitch is within PitchLimit of level. */
  lemma PitchStaysClamped(state: AircraftState, input: Controls, dt: real, cos: real -> real)
    ensures -PitchLimit <= Steer(state, input, dt, cos).pitch <= PitchLimit
  {
  }

  /** So a state in the envelope steps to a state in the envelope. */
  lemma EnvelopePreserved(state: AircraftState, input: Controls, dt: real, t: Transcendentals)
    requires InEnvelope(state) && 0.0 <= dt
    ensures InEnvelope(UpdateAircraft(state, input, dt, t))
  {
    ThrottleStaysInRange(state, input, dt, t.cos);
    PitchStaysClamped(state, input, dt, t.cos);
  }

  /** Holding both pitch keys cancels them before the clamp. Holding both roll keys cancels
      them too: with no turn key the roll stays exactly as it was, since no damping applies
      while a roll key is held, and with a turn key the roll is the one that key alone gives.
      Holding both turn keys leaves the yaw unchanged. */
  lemma PairedInputsCancel(state: AircraftState, input: Controls, dt: real, cos: real -> real)
    ensures var next := Steer(state, input, dt, cos);
      && (input.forward && input.backward ==> next.pitch == ClampPitch(state.pitch))
      && (input.rollLeft && input.rollRight && !input.left && !input.right ==>
            next.roll == state.roll)
      && (input.rollLeft && input.rollRight && (input.left || input.right) ==>
            next.roll == Steer(state, input.(rollLeft := false, rollRight := false), dt, cos).roll)
      && (input.left && input.right ==> next.yaw == state.yaw)
  {
  }

  /** With no roll or turn key held the roll decays by the factor 0.97: its magnitude never
      grows and its sign is kept. */
  lemma RollDamping(state: AircraftState, input: Controls, dt: real, cos: real -> real)
    requires !input.rollLeft && !input.rollRight && !input.left && !input.right
    ensures var next := Steer(state, input, dt, cos);
      && next.roll == 0.97 * state.roll
      && (state.roll >= 0.0 ==> 0.0 <= next.roll <= state.roll)
      && (state.roll <= 0.0 ==> state.roll <= next.roll <= 0.0)
      && (next.roll > 0.0 <==> state.roll > 0.0)
      && (next.roll < 0.0 <==> state.roll < 0.0)
  {
  }

  /** Turning left banks at most BankLimit one way, turning right at most BankLimit the other;
      holding both keeps the roll within BankLimit on both sides. */
  lemma BankLimits(state: AircraftState, input: Controls, dt: real, cos: real -> real)
    ensures var next := Steer(state, input, dt, cos);
      && (input.left && !input.right ==> next.roll <= BankLimit)
      && (input.right && !input.left ==> next.roll >= -BankLimit)
      && (input.left && input.right && 0.0 <= dt ==> -BankLimit <= next.roll <= BankLimit)
  {
  }

  /** The yaw turns by at most YawRate * dt, because the bank-dependent yaw influence
      cos(roll) * 0.5 + 0.5 lies in [0, 1]. */
  lemma YawRateBounded(state: AircraftState, input: Controls, dt: real, cos: real -> real)
    requires IsCosine(cos) && 0.0 <= dt
    ensures var next := Steer(state, input, dt, cos);
      && state.yaw - YawRate * dt <= next.yaw <= state.yaw + YawRate * dt
      && (input.left && !input.right ==> next.yaw >= state.yaw)
      && (input.right && !input.left ==> next.yaw <= state.yaw)
      && (!input.left && !input.right ==> next.yaw == state.yaw)
  {
    var c := cos(state.roll);
    assert -1.0 <= c <= 1.0;
    var turn, bound := YawRate * dt * (c * 0.5 + 0.5), YawRate * dt;
    TurnBound(YawRate, dt, c * 0.5 + 0.5);
    assert 0.0 <= turn <= bound;
    var yaw0 := if input.left then state.yaw + turn else state.yaw;
    var next := Steer(state, input, dt, cos);
    assert next.yaw == if input.right then yaw0 - turn else yaw0;
  }

  /** A turn of rate * dt * influence with the influence in [0, 1] is at most rate * dt. */
  lemma TurnBound(rate: real, dt: real, influence: real)
    requires 0.0 <= rate && 0.0 <= dt && 0.0 <= influence <= 1.0
    ensures 0.0 <= rate * dt * influence <= rate * dt
  {
    MulNonNegative(rate, dt);
    ScaleDown(rate * dt, influence);
  }

  /** The speed law and the position step: whenever the new forward vector is not
      degenerate, the aircraft flies at exactly the throttle's speed, between MinSpeed and
      MaxSpeed; in every case the position moves by exactly velocity * dt (so, by
      MathKernel.ScaleLength, it covers speed * dt). */
  lemma SpeedTracksThrottle(state: AircraftState, input: Controls, dt: real, t: Transcendentals)
    requires Lawful(t) && InEnvelope(state) && 0.0 <= dt
    ensures var next := UpdateAircraft(state, input, dt, t);
      && (ForwardVector(next, t.sqrt) != Zero ==>
            && Length(next.velocity, t.sqrt) == SpeedFor(next.throttle)
            && MinSpeed <= Length(next.velocity, t.sqrt) <= MaxSpeed)
      && Sub(next.position, state.position) == Scale(next.velocity, dt)
  {
    ThrottleStaysInRange(state, input, dt, t.cos);
    FlyAtThrottleSpeed(state.position, Steer(state, input, dt, t.cos), dt, t);
  }

  lemma FlyAtThrottleSpeed(position: Vec3, a: Attitude, dt: real, t: Transcendentals)
    requires Lawful(t) && 0.0 <= a.throttle <= 1.0
    ensures var next := Fly(position, a, dt, t);
      && (ForwardVector(next, t.sqrt) != Zero ==>
            Length(next.velocity, t.sqrt) == SpeedFor(next.throttle))
      && Sub(next.position, position) == Scale(next.velocity, dt)
  {
    var next := Fly(position, a, dt, t);
    var forward := ForwardVector(next, t.sqrt);
    if forward != Zero {
      BasisVectorsNormalized(next, t.sqrt);
      UnitScaledLength(forward, SpeedFor(next.throttle), t.sqrt);
    }
    AddSubCancel(position, Scale(next.velocity, dt));
  }

  /** A unit direction scaled by a non-negative speed has that speed as its length. */
  lemma UnitScaledLength(forward: Vec3, speed: real, sqrt: real -> real)
    requires IsSqrt(sqrt) && Dot(forward, forward) == 1.0 && 0.0 <= speed
    ensures Length(Scale(forward, speed), sqrt) == speed
  {
    UnitLength(forward, sqrt);
    ScaleLength(forward, speed, sqrt);
  }

  /** The rebuilt orientation is always a unit quaternion. */
  lemma RotationIsUnit(state: AircraftState, input: Controls, dt: real, t: Transcendentals)
    requires Lawful(t)
    ensures NormSquared(UpdateAircraft(state, input, dt, t).rotation) == 1.0
  {
    var a := Steer(state, input, dt, t.cos);
    QuatNormalizeSpec(t.quatFromEuler(a.pitch, a.yaw, a.roll), t.sqrt);
  }

  /** The getters return unit vectors or, for a degenerate column, the zero vector. */
  lemma BasisVectorsNormalized(state: AircraftState, sqrt: real -> real)
    requires IsSqrt(sqrt)
    ensures var f := ForwardVector(state, sqrt); f == Zero || Dot(f, f) == 1.0
    ensures var u := UpVector(state, sqrt); u == Zero || Dot(u, u) == 1.0
    ensures var r := RightVector(state, sqrt); r == Zero || Dot(r, r) == 1.0
  {
    var m := QuatToMat4(state.rotation);
    NormalizeSpec(Vec3(-m[8], -m[9], -m[10]), sqrt);
    NormalizeSpec(Vec3(m[4], m[5], m[6]), sqrt);
    NormalizeSpec(Vec3(m[0], m[1], m[2]), sqrt);
  }
}
