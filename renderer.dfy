/** The per-frame uniform block of src/engine/renderer.ts: updateUniforms derives the camera
    basis and packs it, with the camera and aircraft positions, into 20 float slots. */
module Renderer {
  import opened MathKernel
  import opened Aircraft
  import opened Camera

  /** The uniform buffer's size in bytes and the size of one float slot. */
  const UniformBufferSize: nat := 80
  const SlotBytes: nat := 4
  const SlotCount: nat := 20

  /** The camera basis updateUniforms derives: the viewing direction, the direction to the
      right of it, and the up vector perpendicular to both. */
  datatype Basis = Basis(forward: Vec3, right: Vec3, up: Vec3)

  function CameraBasis(camera: CameraState, sqrt: real -> real): Basis {
    var forward := Normalize(Sub(camera.target, camera.position), sqrt);
    var right := Normalize(Cross(forward, camera.up), sqrt);
    Basis(forward, right, Cross(right, forward))
  }

  /** The three slots starting at slot i, read as a vector. */
  function SlotsAt(block: seq<real>, i: nat): Vec3
    requires i + 3 <= |block|
  {
    Vec3(block[i], block[i + 1], block[i + 2])
  }

  /** The layout the shader expects: 20 slots in five groups of four, each a vector and a
      scalar: camera position and time, camera forward and field of view, camera right and
      aspect ratio, camera up and padding, aircraft position and padding. */
  predicate Packed(block: seq<real>, camera: CameraState, aircraft: AircraftState, time: real,
                   aspect: real, basis: Basis)
  {
    && |block| == SlotCount
    && SlotsAt(block, 0) == camera.position && block[3] == time
    && SlotsAt(block, 4) == basis.forward && block[7] == camera.fov
    && SlotsAt(block, 8) == basis.right && block[11] == aspect
    && SlotsAt(block, 12) == basis.up && block[15] == 0.0
    && SlotsAt(block, 16) == aircraft.position && block[19] == 0.0
  }

  /** updateUniforms, without the canvas resize and the buffer upload: the block it fills,
      given the canvas's aspect ratio. Slots 15 and 19 are padding. */
  method UpdateUniforms(camera: CameraState, aircraft: AircraftState, time: real, aspect: real,
                        sqrt: real -> real) returns (block: seq<real>)
    ensures |block| * SlotBytes == UniformBufferSize
    ensures Packed(block, camera, aircraft, time, aspect, CameraBasis(camera, sqrt))
  {
    var basis := CameraBasis(camera, sqrt);
    block := Pack(camera, aircraft, time, aspect, basis);
  }

  /** The slot writes of updateUniforms into a fresh Float32Array of
      UniformBufferSize / SlotBytes slots, for an already derived basis. */
  method Pack(camera: CameraState, aircraft: AircraftState, time: real, aspect: real,
              basis: Basis) returns (block: seq<real>)
    ensures Packed(block, camera, aircraft, time, aspect, basis)
  {
    var floatView := new real[UniformBufferSize / SlotBytes];
    // cameraPos + time, cameraForward + fov, cameraRight + aspect ratio, cameraUp + padding,
    // aircraftPos + padding
    WriteGroup(floatView, 0, camera.position, time);
    WriteGroup(floatView, 4, basis.forward, camera.fov);
    WriteGroup(floatView, 8, basis.right, aspect);
    WriteGroup(floatView, 12, basis.up, 0.0);
    WriteGroup(floatView, 16, aircraft.position, 0.0);
    block := floatView[..];
  }

  /** Four consecutive slot writes: a vector into slots i to i + 2 and a scalar into slot
      i + 3. */
  method WriteGroup(floatView: array<real>, i: nat, v: Vec3, w: real)
    requires i + 4 <= floatView.Length
    modifies floatView
    ensures SlotsAt(floatView[..], i) == v && floatView[i + 3] == w
    ensures forall k :: 0 <= k < floatView.Length && !(i <= k < i + 4) ==> floatView[k] == old(floatView[k])
  {
    floatView[i] := v.x;
    floatView[i + 1] := v.y;
    floatView[i + 2] := v.z;
    floatView[i + 3] := w;
  }

  // ---------------------------------------------------------------- properties

  /** The packed up vector is perpendicular to the packed forward and right vectors, for
      every camera. */
  lemma PackedUpOrthogonal(camera: CameraState, sqrt: real -> real)
    ensures var b := CameraBasis(camera, sqrt);
      Dot(b.up, b.forward) == 0.0 && Dot(b.up, b.right) == 0.0
  {
    var b := CameraBasis(camera, sqrt);
    CrossOrthogonal(b.right, b.forward);
  }

  /** When the camera does not sit on its target and does not look along its own up vector,
      the packed basis is orthonormal. */
  lemma BasisOrthonormal(camera: CameraState, sqrt: real -> real)
    requires IsSqrt(sqrt)
    requires camera.target != camera.position
    requires Cross(Normalize(Sub(camera.target, camera.position), sqrt), camera.up) != Zero
    ensures var b := CameraBasis(camera, sqrt);
      && Dot(b.forward, b.forward) == 1.0
      && Dot(b.right, b.right) == 1.0
      && Dot(b.up, b.up) == 1.0
      && Dot(b.right, b.forward) == 0.0
      && Dot(b.up, b.forward) == 0.0
      && Dot(b.up, b.right) == 0.0
  {
    var b := CameraBasis(camera, sqrt);
    var d := Sub(camera.target, camera.position);
    assert d != Zero;
    NormalizeSpec(d, sqrt);
    var c := Cross(b.forward, camera.up);
    NormalizeSpec(c, sqrt);
    CrossOrthogonal(b.forward, camera.up);
    DotScale(c, 1.0 / Length(c, sqrt), b.forward);
    PackedUpOrthogonal(camera, sqrt);
    CrossNormSquared(b.right, b.forward);
  }

  lemma DotScale(v: Vec3, k: real, w: Vec3)
    ensures Dot(Scale(v, k), w) == k * Dot(v, w)
  {
  }
}
