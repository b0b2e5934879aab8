// The fixed-timestep loop: each animation frame adds the elapsed time
// (capped at 0.1 s) to an accumulator and runs as many 1/60 s updates as
// fit, then renders once. The host clock and frame scheduler are inputs;
// the update and render callbacks are reported as a count and a flag.

module GameLoops {
  import opened Wrappers

  const STEP: real := 1.0 / 60.0
  const MAX_ACCUMULATOR: real := 0.1

  /** The elapsed time the loop accepts for one frame: never more than 0.1 s. */
  function ClampFrame(frameTime: real): (r: real)
    ensures r <= MAX_ACCUMULATOR
    ensures frameTime <= MAX_ACCUMULATOR ==> r == frameTime
  {
    if frameTime > MAX_ACCUMULATOR then MAX_ACCUMULATOR else frameTime
  }

  class GameLoop {
    var running: bool
    const dt: real
    var accumulator: real
    var lastTime: real
    const maxAccumulator: real
    /** The pending animation-frame request, if any. */
    var frameId: Option<int>

    ghost predicate Valid()
      reads this
    {
      dt == STEP && maxAccumulator == MAX_ACCUMULATOR
    }

    constructor ()
      ensures Valid() && !running && accumulator == 0.0 && lastTime == 0.0 && frameId.None?
    {
      running, dt, accumulator, lastTime := false, STEP, 0.0, 0.0;
      maxAccumulator, frameId := MAX_ACCUMULATOR, None;
    }

    /** `now` is the host clock in seconds and `request` the id of the first frame request. */
    method Start(now: real, request: int)
      modifies this
      ensures old(running) ==> unchanged(this)
      ensures !old(running) ==>
        running && lastTime == now && accumulator == 0.0 && frameId == Some(request)
    {
      if running {
        return;
      }
      running := true;
      lastTime := now;
      accumulator := 0.0;
      frameId := Some(request);
    }

    method Stop()
      modifies this`running, this`frameId
      ensures !running && frameId.None?
    {
      running := false;
      if frameId.Some? {
        frameId := None;
      }
    }

    /**
     * One animation frame at `timestamp` (milliseconds). When running: the
     * capped frame time is added, then the accumulator is drained in steps
     * of 1/60 s, one update each, leaving less than one step; then one
     * render. `updates` is the number of update calls.
     */
    method Tick(timestamp: real, request: int) returns (updates: nat, rendered: bool)
      requires Valid()
      modifies this
      ensures Valid()
      ensures !old(running) ==> unchanged(this) && updates == 0 && !rendered
      ensures old(running) ==>
        var acc := old(accumulator) + ClampFrame(timestamp / 1000.0 - old(lastTime));
        rendered && running && lastTime == timestamp / 1000.0 && frameId == Some(request) &&
        accumulator == acc - updates as real * STEP && accumulator < STEP &&
        (acc >= 0.0 ==> 0.0 <= accumulator && updates == (acc * 60.0).Floor) &&
        (acc < STEP ==> updates == 0)
    {
      if !running {
        return 0, false;
      }
      var currentTime := timestamp / 1000.0;
      var frameTime := currentTime - lastTime;
      lastTime := currentTime;
      if frameTime > maxAccumulator {
        frameTime := maxAccumulator;
      }
      accumulator := accumulator + frameTime;
      ghost var acc := accumulator;
      updates := 0;
      while accumulator >= dt
        invariant running && lastTime == currentTime && Valid()
        invariant accumulator == acc - updates as real * STEP
        invariant acc >= 0.0 ==> accumulator >= 0.0
        invariant acc < STEP ==> updates == 0
        invariant acc >= 0.0 ==> updates <= (acc * 60.0).Floor
        decreases (accumulator * 60.0).Floor
      {
        accumulator := accumulator - dt;
        updates := updates + 1;
      }
      if acc >= 0.0 {
        DrainCount(acc, updates);
      }
      rendered := true;
      frameId := Some(request);
    }
  }

  /** When `acc - n/60` lies in [0, 1/60), n is the floor of `60 acc`. */
  lemma DrainCount(acc: real, n: nat)
    requires 0.0 <= acc - n as real * STEP < STEP
    ensures n == (acc * 60.0).Floor
  {
    assert n as real <= acc * 60.0 < n as real + 1.0;
  }
}
