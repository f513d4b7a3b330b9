# Webhawk flight simulator core in Dafny

Webhawk is a browser flight simulator drawn with WebGPU. Each animation frame its game loop:

- caps the elapsed time;
- advances the simulation clock and a one-second FPS window;
- integrates the aircraft from the held keys;
- moves a chase camera toward a point behind and above the aircraft;
- packs a 20-float uniform block for the shaders.

This project models that per-frame core over Dafny `real`. It covers six parts:

- the keyboard flag record and its handlers (`input.dfy`);
- the aircraft integrator (`aircraft.dfy`);
- the chase camera (`camera.dfy`);
- the uniform block packer (`renderer.dfy`);
- the frame orchestrator (`game.dfy`);
- the vector, matrix and quaternion kernel they share (`math_kernel.dfy`).

`Math.sqrt`, `Math.cos`, `Math.exp` and the quaternion-from-Euler conversion stay abstract. They are the fields of `MathKernel.Transcendentals`. The lemmas assume only these facts about them (`IsSqrt`, `IsCosine`, `Lawful`):

- sqrt(x) ≥ 0 and sqrt(x)² = x for x ≥ 0;
- cos lies in [-1, 1];
- exp(x) > 0;
- exp(x) ≤ 1 for x ≤ 0.

How the model is built:

- The input record and the game's closure variables are classes whose methods update fields.
- The matrix multiply, the inverse's scaling loop, the aircraft matrix and the uniform packing fill arrays in place.
- Everything else is functions on datatypes.
- The game loop's clock and the canvas aspect ratio become parameters of `Game.Game.Tick`.

## Model

| member | source | states |
|---|---|---|
| MathKernel.Add | src/engine/math.ts:9-11 | definition: the componentwise sum a + b |
| MathKernel.Sub | src/engine/math.ts:13-15 | definition: the componentwise difference a − b |
| MathKernel.Scale | src/engine/math.ts:17-19 | definition: every component multiplied by s |
| MathKernel.Dot | src/engine/math.ts:21-23 | definition: a.x·b.x + a.y·b.y + a.z·b.z |
| MathKernel.Cross | src/engine/math.ts:25-31 | definition: (a.y·b.z − a.z·b.y, a.z·b.x − a.x·b.z, a.x·b.y − a.y·b.x) |
| MathKernel.SubAddCancel | src/engine/math.ts:9-15 | vec3Sub(vec3Add(a, b), b) is a |
| MathKernel.ScaleByOne | src/engine/math.ts:17-19 | scaling by 1 is the identity |
| MathKernel.CrossOrthogonal | src/engine/math.ts:21-31 | the cross product has zero dot product with each operand |
| MathKernel.CrossNormSquared | src/engine/math.ts:21-31 | Lagrange's identity for the squared length of a cross product |
| MathKernel.DotSelf | src/engine/math.ts:21-23 | v·v is non-negative and is zero exactly for the zero vector |
| MathKernel.Length | src/engine/math.ts:33-35 | definition: the square root of x² + y² + z² |
| MathKernel.Normalize | src/engine/math.ts:37-41 | definition: (0,0,0) when the length is 0, otherwise each component divided by the length |
| MathKernel.UnitLength | src/engine/math.ts:33-35 | a vector with v·v = 1 has length 1 |
| MathKernel.ScaleLength | src/engine/math.ts:17-19 | scaling by k ≥ 0 multiplies the length by k |
| MathKernel.LengthZero | src/engine/math.ts:33-35 | vec3Length is non-negative and is zero exactly for the zero vector |
| MathKernel.NormalizeSpec | src/engine/math.ts:37-41 | vec3Normalize returns (0,0,0) for the zero vector; otherwise it divides every component by the same positive length, and the result has unit length |
| MathKernel.NormalizeOfUnit | src/engine/math.ts:37-41 | normalizing a unit vector returns it unchanged |
| MathKernel.Identity | src/engine/math.ts:43-50 | definition: ones on the diagonal (entries 0, 5, 10, 15) and zeros elsewhere |
| MathKernel.Product | src/engine/math.ts:76-88 | definition: entry 4i + j is the sum over k of a[4i + k]·b[4k + j] |
| MathKernel.Mat4Multiply | src/engine/math.ts:76-88 | the nested loops fill all 16 entries with row-by-column products |
| MathKernel.ProductIdentity | src/engine/math.ts:43-50 | mat4Identity is neutral for mat4Multiply on both sides |
| MathKernel.ScaleInPlace | src/engine/math.ts:163-165 | the scaling loop multiplies each of the 16 entries by the same factor and writes no other entry |
| MathKernel.Cofactors | src/engine/math.ts:126-157 | definition: entry k is the cofactor polynomial mat4Inverse writes into inv[k] |
| MathKernel.Determinant | src/engine/math.ts:159 | definition: m[0]·inv[0] + m[1]·inv[4] + m[2]·inv[8] + m[3]·inv[12] |
| MathKernel.Mat4Inverse | src/engine/math.ts:123-167 | the identity when the computed determinant is exactly 0; otherwise every cofactor times 1/det |
| MathKernel.InverseOfIdentity | src/engine/math.ts:123-167 | the identity has determinant 1 and is its own cofactor matrix |
| MathKernel.ZeroLastColumnIsSingular | src/engine/math.ts:159-160 | a matrix whose last column is zero takes the singular fallback |
| MathKernel.QuatMultiply | src/engine/math.ts:210-217 | definition: the Hamilton product in the [x, y, z, w] layout |
| MathKernel.QuatNormalize | src/engine/math.ts:219-223 | definition: [0,0,0,1] when the norm is 0, otherwise every component divided by the norm |
| MathKernel.QuatToMat4 | src/engine/math.ts:191-208 | definition: the column-major rotation matrix with the source's sixteen entries |
| MathKernel.QuatMultiplyIdentity | src/engine/math.ts:210-217 | [0,0,0,1] is neutral for the Hamilton product on both sides |
| MathKernel.QuatMultiplyOrderMatters | src/engine/math.ts:210-217 | i·j = k but j·i = −k, so operand order matters |
| MathKernel.NormSquaredNonNegative | src/engine/math.ts:219-220 | the squared norm is non-negative and is zero only for the zero quaternion |
| MathKernel.QuatNormalizeSpec | src/engine/math.ts:219-223 | quatNormalize returns exactly [0,0,0,1] for norm 0, and always returns squared norm 1 |
| MathKernel.QuatNormalizeOfZero | src/engine/math.ts:221 | the zero-norm fallback is [0,0,0,1] |
| MathKernel.QuatNormalizeOfNonZero | src/engine/math.ts:222 | dividing by a non-zero norm gives squared norm 1 |
| MathKernel.QuatToMat4Affine | src/engine/math.ts:191-208 | entries 3, 7, 11, 12, 13 and 14 are 0 and entry 15 is 1 |
| MathKernel.QuatToMat4OfIdentity | src/engine/math.ts:191-208 | [0,0,0,1] maps to mat4Identity |
| Aircraft.Steer | src/engine/aircraft.ts:59-88 | definition: the key handling, bank limits, throttle saturation, pitch clamp and roll damping, in source order |
| Aircraft.ForwardOf | src/engine/aircraft.ts:94-99 | definition: the normalized negation of entries 8-10 (the third column) of quatToMat4 of the rotation; getForwardVector (aircraft.ts:130-133) is the same computation |
| Aircraft.Fly | src/engine/aircraft.ts:90-118 | definition: the orientation from the Euler angles, the velocity along the new forward vector at the throttle's speed, and the position step |
| Aircraft.UpdateAircraft | src/engine/aircraft.ts:54-119 | definition: Steer, then Fly from the current position |
| Aircraft.ForwardVector | src/engine/aircraft.ts:130-133 | definition: the normalized negated third column of the rotation matrix |
| Aircraft.UpVector | src/engine/aircraft.ts:135-138 | definition: the normalized second column of the rotation matrix |
| Aircraft.RightVector | src/engine/aircraft.ts:140-143 | definition: the normalized first column of the rotation matrix |
| Aircraft.CreateAircraft | src/engine/aircraft.ts:42-52 | position (0,100,0), velocity (0,0,−20), level angles, throttle 0.3, orientation from the zero Euler angles, inside the envelope |
| Aircraft.ClampPitch | src/engine/aircraft.ts:83 | the result lies within π/2 − 0.1 of level; it is the input when the input is inside that range and the nearer bound otherwise |
| Aircraft.SpeedFor | src/engine/aircraft.ts:102 | speed lies in [20, 150] for a throttle in [0,1]; it is 20 at throttle 0 and 150 at throttle 1 |
| Aircraft.ThrottleStaysInRange | src/engine/aircraft.ts:79-80 | a throttle in [0,1] stays in [0,1] for dt ≥ 0; each key alone moves it by 0.5·dt, saturating; no key leaves it |
| Aircraft.PitchStaysClamped | src/engine/aircraft.ts:83 | after every update the pitch lies in [−π/2+0.1, π/2−0.1] |
| Aircraft.EnvelopePreserved | src/engine/aircraft.ts:54-119 | a state inside the throttle and pitch envelope steps to one inside it |
| Aircraft.PairedInputsCancel | src/engine/aircraft.ts:62-72 | both pitch keys give the clamped old pitch; both roll keys cancel: with no turn key the roll is kept, and with a turn key the roll is the one that turn key alone gives; both turn keys keep the yaw |
| Aircraft.RollDamping | src/engine/aircraft.ts:86-88 | with no roll or turn key the roll becomes 0.97·roll; its magnitude does not grow and its sign is kept |
| Aircraft.BankLimits | src/engine/aircraft.ts:75-76 | a left turn leaves roll ≤ π/3, a right turn leaves roll ≥ −π/3, and both together bound it on both sides |
| Aircraft.YawRateBounded | src/engine/aircraft.ts:66-68 | the yaw moves by at most 1.0·dt, in the direction of the single turn key held, and not at all without one |
| Aircraft.SpeedTracksThrottle | src/engine/aircraft.ts:94-108 | for a state in the envelope and dt ≥ 0: when the new forward vector is not degenerate, the velocity's length is exactly the throttle's speed, in [20, 150]; the position moves by exactly velocity·dt |
| Aircraft.FlyAtThrottleSpeed | src/engine/aircraft.ts:91-108 | for a throttle in [0,1], a non-degenerate forward vector gives a velocity of length 20 + 130·throttle, and the position step is velocity·dt |
| Aircraft.RotationIsUnit | src/engine/aircraft.ts:91 | the rebuilt orientation is a unit quaternion |
| Aircraft.GetAircraftMatrix | src/engine/aircraft.ts:121-128 | quatToMat4 of the rotation except entries 12-14, which hold the position |
| Aircraft.BasisVectorsNormalized | src/engine/aircraft.ts:130-143 | the forward, up and right getters return unit vectors or, for a degenerate column, the zero vector |
| Input.Binding | src/engine/input.ts:21-52 | definition: the key-down switch's case labels as a map from code to flag |
| Input.Set | src/engine/input.ts:24 | definition: the record with one flag replaced |
| Input.AfterKey | src/engine/input.ts:20-88 | definition: a bound code sets its flag to the event's value; an unbound code changes nothing |
| Input.InputState.constructor | src/engine/input.ts:3-14 | all eight flags false |
| Input.InputState.HandleKeyDown | src/engine/input.ts:20-53 | the record after the key-down switch is the old record with the code's flag set |
| Input.InputState.HandleKeyUp | src/engine/input.ts:55-88 | the record after the key-up switch is the old record with the code's flag cleared |
| Input.InputState.Write | src/engine/input.ts:24 | one case's assignment: flag f becomes v and the other seven keep their values |
| Input.InputState.HandleBlur | src/engine/input.ts:90-100 | every flag false afterwards, whatever it was before, so blur is idempotent |
| Input.BindingMatchesCodes | src/engine/input.ts:21-52 | the switch's case labels agree in both directions with the key map written flag by flag (Q→rollRight, E→rollLeft), and a code is unbound exactly when no flag lists it |
| Input.ReleasedIsAllClear | src/engine/input.ts:3-14 | the initial record is the one and only record with no flag set |
| Input.KeyDownSetsExactly | src/engine/input.ts:20-53 | a key-down of a bound code sets its flag and leaves the seven others |
| Input.KeyUpUndoesKeyDown | src/engine/input.ts:55-88 | a key-up of any code for the same flag clears it and restores the other seven; on a flag that was off the pair changes nothing |
| Input.KeyEventChangesIff | src/engine/input.ts:21-52 | a key event changes the record exactly when its code is bound and its flag differs from the written value; unbound codes change nothing |
| Input.KeyEventIdempotent | src/engine/input.ts:20-53 | pressing (or releasing) the same code twice equals doing it once |
| Input.KeyEventsOnDifferentFlagsCommute | src/engine/input.ts:20-88 | events on different flags commute |
| Camera.CreateCamera | src/engine/camera.ts:28-37 | position (0,105,20), target (0,100,0), up (0,1,0), fov π/3, near 0.5, far 5000 |
| Camera.SmoothFactor | src/engine/camera.ts:53 | definition: 1 − exp(−5·dt) |
| Camera.Lerp | src/engine/camera.ts:54-55 | definition: a + s·(b − a) |
| Camera.IdealPosition | src/engine/camera.ts:48-51 | definition: aircraft.position − 15·forward + 5·up |
| Camera.IdealTarget | src/engine/camera.ts:58-59 | definition: aircraft.position + 20·forward |
| Camera.RawUp | src/engine/camera.ts:63-65 | definition: the old up moved f/2 of the way toward the aircraft's up |
| Camera.Follow | src/engine/camera.ts:68-69 | fov, near and far are carried over unchanged |
| Camera.UpdateCamera | src/engine/camera.ts:39-74 | fov, near and far are carried over unchanged |
| Camera.SmoothFactorInRange | src/engine/camera.ts:53 | 1 − exp(−5·dt) lies in [0,1) for dt ≥ 0 |
| Camera.LerpStep | src/engine/camera.ts:54-55 | one step a + s·(b − a) leaves the gap scaled by 1 − s, and for s in [0,1] each coordinate stays between a and b |
| Camera.PositionApproachesIdeal | src/engine/camera.ts:48-55 | the new position lies between the old one and aircraft.position − 15·forward + 5·up, and the remaining gap is scaled by 1 − f |
| Camera.TargetApproachesIdeal | src/engine/camera.ts:58-61 | the target's remaining gap to aircraft.position + 20·forward is scaled by 1 − 1.5f |
| Camera.UpIsUnit | src/engine/camera.ts:64-72 | the new up is (0,1,0) when the raw up is no longer than 0.01, and the normalized raw up otherwise; either way it has unit length |
| Camera.FollowAtZeroFactor | src/engine/camera.ts:53-72 | f = 0 leaves a camera with a unit up vector unchanged |
| Camera.FixedPoint | src/engine/camera.ts:53-72 | a camera at the ideal position and target, with the aircraft's unit up, is unchanged for every f |
| Camera.UpdateCameraApproaches | src/engine/camera.ts:39-74 | for dt ≥ 0 the position approaches the ideal point with a gap factor in (0,1] and the up vector has unit length |
| Renderer.CameraBasis | src/engine/renderer.ts:95-97 | definition: forward = normalize(target − position), right = normalize(forward × up), up = right × forward |
| Renderer.Packed | src/engine/renderer.ts:100-131 | definition: the 20-slot layout of the uniform block |
| Renderer.UpdateUniforms | src/engine/renderer.ts:89-131 | the block has 20 slots (80 bytes) laid out as below, with the basis derived from the camera |
| Renderer.Pack | src/engine/renderer.ts:100-131 | slots 0-3 hold camera position and time; 4-7 forward and fov; 8-11 right and aspect; 12-14 up with slot 15 zero; 16-18 aircraft position with slot 19 zero |
| Renderer.WriteGroup | src/engine/renderer.ts:104-107 | four slot writes set a vector and a scalar and leave every other slot alone |
| Renderer.PackedUpOrthogonal | src/engine/renderer.ts:95-97 | the packed up vector is orthogonal to the packed forward and right vectors |
| Renderer.BasisOrthonormal | src/engine/renderer.ts:95-97 | when the camera is off its target and does not look along its up vector, forward, right and up are orthonormal |
| Game.FrameDelta | src/engine/game.ts:54 | dt ≤ 0.1; dt is the elapsed milliseconds / 1000 up to 100 ms and exactly 0.1 beyond |
| Game.Game.constructor | src/engine/game.ts:34-48 | the initial aircraft and camera; a fresh input record with every key released, as createInputState makes it; a zeroed clock and FPS window; running |
| Game.Game.Tick | src/engine/game.ts:50-74 | a stopped game changes nothing. A running tick sets lastTime to now and adds exactly dt to gameTime. It steps the FPS window, updates the aircraft from the input, then the camera from the new aircraft. It then packs the uniforms from the new camera, aircraft and gameTime. It keeps the invariant Valid |
| Game.Game.AdvanceClock | src/engine/game.ts:53-65 | the timing and FPS half of a tick, which touches no simulation state |
| Game.Game.AdvanceWorld | src/engine/game.ts:67-74 | the update half of a tick, in its fixed call order, which touches no clock state |
| Game.Game.Destroy | src/engine/game.ts:93-94 | clears running and nothing else, so every later tick is a no-op |
| Game.FpsStep | src/engine/game.ts:59-65 | definition: count the frame and its delta; at one second or more publish the count and reset the window |
| Game.Game.GetState | src/engine/game.ts:82-91 | definition: the aircraft, camera, game time, published FPS, the velocity's length and the y coordinate |
| Game.FpsStepKeepsInvariant | src/engine/game.ts:59-65 | with dt ≤ 0.1, fpsTime stays below 1 and at most 0.1 per counted frame, and a published FPS is 0 or at least 10 |
| Game.FpsChangesOnlyOnClose | src/engine/game.ts:59-65 | the window closes exactly when fpsTime + dt ≥ 1; it then publishes frameCount + 1 and resets both counters; otherwise currentFps is kept |
| Game.FpsRunWithinWindow | src/engine/game.ts:59-65 | frames that do not close the window only add their count and their deltas |
| Game.ConsistentStep | src/engine/game.ts:54-65 | one capped frame keeps gameTime equal to the sum of the deltas and keeps the window invariant |
| Game.SumBound | src/engine/game.ts:54-56 | after n capped frames the game time is at most 0.1·n |
| Game.StateReport | src/engine/game.ts:82-91 | getState's time is at most 0.1 per frame so far; its FPS is 0 or at least 10; its speed is the non-negative length of the velocity; its altitude is the y coordinate |

## Left out

- GPU work is not modelled: the device, adapter and context, shader compilation, buffers, bind groups, pipelines, command encoding, `writeBuffer`, submit and the renderer's destroy. These are calls into WebGPU. The packed block is kept as the game's `uniforms` field instead.
- Canvas resizing and the device pixel ratio are DOM plumbing. The aspect ratio is a parameter of `Tick` and of `UpdateUniforms`.
- `requestAnimationFrame`, `performance.now`, the async `createGame` and the event-listener registration and removal are scheduling and I/O. `now` is a parameter of `Tick` and of the constructor. Each call of `Tick` is one frame.
- The React components and HUD are user interface and are not part of this model.
- `quatFromEuler`, `Math.cos`, `Math.exp` and `Math.sqrt` stay abstract, with only the facts listed above. Orientation geometry (that the forward vector follows the Euler angles, for example) is therefore not proved.
- `mat4Perspective`, `mat4LookAt`, `mat4RotateX/Y/Z`, `getViewMatrix` and `getProjectionMatrix` are trigonometric or depend on them, so they are not modelled.
- Float32 and float64 rounding, `Float32Array` storage included, are not modelled. All arithmetic is exact real arithmetic, and `=== 0` tests are exact real equality. `Math.PI` becomes the decimal 3.141592653589793 (`MathKernel.Pi`), not the nearest double; the pitch limit, the bank limit and the camera's field of view are computed from it.
- MathKernel.Mat4Inverse: only the singular fallback and the cofactor scaling are stated. That m·inverse = I is not proved, because it is sixteen cubic cofactor polynomials.
- MathKernel.QuatToMat4Affine: the rotation columns are not proved to have unit length for a unit quaternion. Likewise the Hamilton product is not proved to preserve norms. Both are quartic polynomial identities that the solver does not settle reliably.
- Input.InputState.HandleKeyDown: the switch's case labels are a map from code to flag (`Binding`), and each case's assignment is the one `Write` method. Re-storing the seven other fields with their own values is not observable.
- Camera.TargetApproachesIdeal: the target step is 1.5·f. It is not proved to stay between the old and ideal target, because that needs f ≤ 2/3. That bound needs values of exp that the abstract exp does not give.
- Game.Game.Tick: the ghost field `deltas` records the deltas of past frames, for stating game-time facts. It has no counterpart in the program.
- Game.Game.Destroy: cleanupInput and renderer.destroy are not modelled. Only the running flag is.
- Game.Game.Tick: the game time is not proved to be non-negative. The clock is a parameter, and an earlier `now` than the last one gives a negative delta, exactly as the program computes it.
