/** The frame orchestrator of src/engine/game.ts: the state the game loop closes over, one
    tick of the loop, getState and the running flag that destroy clears. The animation-frame
    scheduling and performance.now become the caller's repeated calls of Tick with the
    current time. */
module Game {
  import opened MathKernel
  import opened Aircraft
  import opened Input
  import opened Camera
  import opened Renderer

  /** The cap on the frame delta, in seconds. */
  const MaxDelta: real := 0.1

  /** The frame delta: the elapsed milliseconds in seconds, capped at MaxDelta. */
  function FrameDelta(lastTime: real, now: real): (dt: real)
    ensures dt <= MaxDelta
    ensures now - lastTime <= 100.0 ==> dt == (now - lastTime) / 1000.0
    ensures now - lastTime >= 100.0 ==> dt == MaxDelta
  {
    Min((now - lastTime) / 1000.0, MaxDelta)
  }

  /** The FPS counter: frames and seconds in the current one-second window, and the frame
      count of the last window that closed. */
  datatype FpsWindow = FpsWindow(frameCount: nat, fpsTime: real, currentFps: nat)

  /** One frame of the counter: count the frame and its delta; once the window holds a
      second or more, publish its frame count and start a new window. */
  function FpsStep(w: FpsWindow, dt: real): FpsWindow {
    var count, time := w.frameCount + 1, w.fpsTime + dt;
    if time >= 1.0 then FpsWindow(0, 0.0, count) else FpsWindow(count, time, w.currentFps)
  }

  /** The counter after a run of frames. */
  function FpsRun(w: FpsWindow, deltas: seq<real>): FpsWindow
    decreases |deltas|
  {
    if |deltas| == 0 then w else FpsRun(FpsStep(w, deltas[0]), deltas[1..])
  }

  function Sum(s: seq<real>): real
    decreases |s|
  {
    if |s| == 0 then 0.0 else Sum(s[..|s| - 1]) + s[|s| - 1]
  }

  /** What the counter keeps between frames when every delta is at most MaxDelta: the open
      window is shorter than a second and has taken at most MaxDelta per frame, and a
      published count is zero (none yet) or at least ten, since a second cannot pass in
      fewer than ten capped frames. */
  predicate WindowInvariant(w: FpsWindow) {
    && w.fpsTime < 1.0
    && w.fpsTime <= 0.1 * w.frameCount as real
    && (w.currentFps == 0 || w.currentFps >= 10)
  }

  /** Game time is the sum of the frame deltas, each at most MaxDelta, and the FPS counter
      keeps its invariant. */
  ghost predicate Consistent(gameTime: real, deltas: seq<real>, w: FpsWindow) {
    && gameTime == Sum(deltas)
    && (forall i :: 0 <= i < |deltas| ==> deltas[i] <= MaxDelta)
    && WindowInvariant(w)
  }

  /** What getState reports. */
  datatype GameState = GameState(
    aircraft: AircraftState,
    camera: CameraState,
    time: real,
    fps: nat,
    speed: real,
    altitude: real)

  /** The closure state of createGame; `uniforms` is the last block the renderer packed and
      `deltas` the ghost history of the frame deltas of all running ticks. */
  class Game {
    const t: Transcendentals
    const input: InputState
    var aircraft: AircraftState
    var camera: CameraState
    var lastTime: real
    var frameCount: nat
    var fpsTime: real
    var currentFps: nat
    var running: bool
    var gameTime: real
    var uniforms: seq<real>
    ghost var deltas: seq<real>

    function Window(): FpsWindow
      reads this
    {
      FpsWindow(frameCount, fpsTime, currentFps)
    }

    /** Game time is the sum of the frame deltas, each at most MaxDelta, and the FPS counter
        keeps its invariant. */
    ghost predicate Valid()
      reads this
    {
      Consistent(gameTime, deltas, Window())
    }

    /** The initial state of createGame, with `now` the start time: a fresh input record
        with every key released, as createInputState makes it. */
    constructor (t: Transcendentals, now: real)
      ensures Valid() && running
      ensures this.t == t && fresh(input) && input.Snapshot() == Released
      ensures aircraft == CreateAircraft(t) && camera == CreateCamera()
      ensures lastTime == now && gameTime == 0.0 && deltas == []
      ensures Window() == FpsWindow(0, 0.0, 0) && uniforms == []
    {
      this.t := t;
      input := new InputState();
      aircraft := CreateAircraft(t);
      camera := CreateCamera();
      lastTime := now;
      frameCount, fpsTime, currentFps := 0, 0.0, 0;
      running := true;
      gameTime := 0.0;
      uniforms := [];
      deltas := [];
    }

    /** One call of gameLoop at time `now` (milliseconds) on a canvas of the given aspect
        ratio. A stopped game does nothing. A running one takes the capped delta, advances
        the clock and the FPS counter, then updates the aircraft, then the camera from the
        new aircraft, then packs the uniforms from the new camera, aircraft and game time. */
    method Tick(now: real, aspect: real)
      requires Valid()
      modifies this
      ensures Valid()
      ensures !old(running) ==> unchanged(this)
      ensures old(running) ==>
        var dt := FrameDelta(old(lastTime), now);
        && running
        && lastTime == now
        && gameTime == old(gameTime) + dt
        && deltas == old(deltas) + [dt]
        && Window() == FpsStep(old(Window()), dt)
        && aircraft == UpdateAircraft(old(aircraft), input.Snapshot(), dt, t)
        && camera == UpdateCamera(old(camera), aircraft, dt, t)
        && Packed(uniforms, camera, aircraft, gameTime, aspect, CameraBasis(camera, t.sqrt))
    {
      if !running {
        return;
      }
      var deltaTime := AdvanceClock(now);
      AdvanceWorld(deltaTime, aspect);
    }

    /** The clock and FPS half of a running tick. */
    method AdvanceClock(now: real) returns (deltaTime: real)
      requires Valid()
      modifies this
      ensures Valid() && deltaTime == FrameDelta(old(lastTime), now)
      ensures lastTime == now && gameTime == old(gameTime) + deltaTime
      ensures deltas == old(deltas) + [deltaTime] && Window() == FpsStep(old(Window()), deltaTime)
      ensures unchanged(this`aircraft, this`camera, this`uniforms, this`running)
    {
      deltaTime := FrameDelta(lastTime, now);
      var w := FpsStep(Window(), deltaTime);
      var time := gameTime + deltaTime;
      ghost var history := deltas + [deltaTime];
      ConsistentStep(gameTime, deltas, Window(), deltaTime);
      assert Consistent(time, history, w);
      lastTime, gameTime, deltas := now, time, history;
      frameCount, fpsTime, currentFps := w.frameCount, w.fpsTime, w.currentFps;
      assert Window() == w;
    }

    /** The world half of a running tick. */
    method AdvanceWorld(deltaTime: real, aspect: real)
      modifies this
      ensures aircraft == UpdateAircraft(old(aircraft), input.Snapshot(), deltaTime, t)
      ensures camera == UpdateCamera(old(camera), aircraft, deltaTime, t)
      ensures Packed(uniforms, camera, aircraft, gameTime, aspect, CameraBasis(camera, t.sqrt))
      ensures unchanged(this`lastTime, this`gameTime, this`deltas, this`running)
      ensures unchanged(this`frameCount, this`fpsTime, this`currentFps)
    {
      var nextAircraft := UpdateAircraft(aircraft, input.Snapshot(), deltaTime, t);
      var nextCamera := UpdateCamera(camera, nextAircraft, deltaTime, t);
      var block := UpdateUniforms(nextCamera, nextAircraft, gameTime, aspect, t.sqrt);
      aircraft, camera, uniforms := nextAircraft, nextCamera, block;
    }

    /** getState: the current aircraft, camera, game time and published FPS, with the speed
        (length of the velocity) and the altitude (y coordinate) derived from the aircraft. */
    function GetState(): GameState
      reads this
    {
      GameState(aircraft, camera, gameTime, currentFps, Length(aircraft.velocity, t.sqrt),
                aircraft.position.y)
    }

    /** The running flag that destroy clears; the input and renderer teardown are not part
        of this model. */
    method Destroy()
      requires Valid()
      modifies this
      ensures Valid() && !running
      ensures aircraft == old(aircraft) && camera == old(camera) && gameTime == old(gameTime)
      ensures lastTime == old(lastTime) && Window() == old(Window()) && uniforms == old(uniforms)
      ensures deltas == old(deltas)
    {
      running := false;
    }
  }

  // ---------------------------------------------------------------- properties

  lemma {:induction false} SumAppend(s: seq<real>, x: real)
    ensures Sum(s + [x]) == Sum(s) + x
  {
    assert (s + [x])[..|s|] == s;
  }

  /** Game time after n capped frames is at most n * MaxDelta. */
  lemma {:induction false} SumBound(s: seq<real>)
    requires forall i :: 0 <= i < |s| ==> s[i] <= MaxDelta
    ensures Sum(s) <= 0.1 * |s| as real
  {
    if |s| > 0 {
      SumBound(s[..|s| - 1]);
    }
  }

  /** One capped frame keeps the game's bookkeeping consistent. */
  lemma ConsistentStep(gameTime: real, deltas: seq<real>, w: FpsWindow, dt: real)
    requires Consistent(gameTime, deltas, w) && dt <= MaxDelta
    ensures Consistent(gameTime + dt, deltas + [dt], FpsStep(w, dt))
  {
    SumAppend(deltas, dt);
    FpsStepKeepsInvariant(w, dt);
  }

  /** The counter's invariant holds from the start and survives every frame whose delta
      respects the cap, whatever its sign. */
  lemma FpsStepKeepsInvariant(w: FpsWindow, dt: real)
    requires WindowInvariant(w) && dt <= MaxDelta
    ensures WindowInvariant(FpsStep(w, dt))
  {
  }

  /** The published count changes only on a frame that closes the window, and then it is
      the number of frames in that window, this one included; closing resets the window. */
  lemma FpsChangesOnlyOnClose(w: FpsWindow, dt: real)
    ensures var n := FpsStep(w, dt);
      && (w.fpsTime + dt >= 1.0 <==> n == FpsWindow(0, 0.0, w.frameCount + 1))
      && (w.fpsTime + dt < 1.0 ==> n.currentFps == w.currentFps)
  {
  }

  /** A run of frames none of which closes the window only adds its frames to the count and
      its deltas to the window's time. */
  lemma {:induction false} FpsRunWithinWindow(w: FpsWindow, ds: seq<real>)
    requires forall k :: 1 <= k <= |ds| ==> w.fpsTime + Sum(ds[..k]) < 1.0
    decreases |ds|
    ensures FpsRun(w, ds) == FpsWindow(w.frameCount + |ds|, w.fpsTime + Sum(ds), w.currentFps)
  {
    if |ds| > 0 {
      var first := FpsStep(w, ds[0]);
      assert ds[..1] == [ds[0]];
      SumAppend([], ds[0]);
      assert first == FpsWindow(w.frameCount + 1, w.fpsTime + ds[0], w.currentFps);
      forall k | 1 <= k <= |ds[1..]|
        ensures first.fpsTime + Sum(ds[1..][..k]) < 1.0
      {
        SumShift(ds, k);
        assert w.fpsTime + Sum(ds[..k + 1]) < 1.0;
      }
      FpsRunWithinWindow(first, ds[1..]);
      SumShift(ds, |ds| - 1);
      assert ds[..|ds|] == ds;
      assert ds[1..][..|ds| - 1] == ds[1..];
    }
  }

  /** Sum(ds[..k + 1]) is the first delta plus the sum of the k after it. */
  lemma {:induction false} SumShift(ds: seq<real>, k: nat)
    requires 0 < |ds| && k + 1 <= |ds|
    ensures Sum(ds[..k + 1]) == ds[0] + Sum(ds[1..][..k])
  {
    if k == 0 {
      assert ds[..1] == [ds[0]];
      SumAppend([], ds[0]);
    } else {
      SumShift(ds, k - 1);
      assert ds[..k + 1][..k] == ds[..k];
      assert ds[1..][..k][..k - 1] == ds[1..][..k - 1];
      assert ds[1..][..k][k - 1] == ds[k];
    }
  }

  /** What getState reports of a consistent game: a time of at most MaxDelta per frame
      so far, an FPS of 0 until the first window closes and at least 10 afterwards (the
      one-second window cannot close in fewer than ten capped frames), and a speed that is
      the non-negative length of the velocity. */
  lemma StateReport(g: Game)
    requires g.Valid() && IsSqrt(g.t.sqrt)
    ensures var s := g.GetState();
      && s.time <= 0.1 * |g.deltas| as real
      && (s.fps == 0 || s.fps >= 10)
      && 0.0 <= s.speed && s.speed * s.speed == Dot(g.aircraft.velocity, g.aircraft.velocity)
      && s.altitude == g.aircraft.position.y
  {
    SumBound(g.deltas);
    DotSelf(g.aircraft.velocity);
  }
}
