// Shared physics constants, in pixels and frames.

module Physics {
  const GRAVITY: real := 0.5
  const TERMINAL_VELOCITY: real := 12.0
  const GROUND_FRICTION: real := 0.8
  const AIR_FRICTION: real := 0.95
  const JUMP_FORCE: real := -12.0
  /** The fastest upward speed once the jump key is released. */
  const JUMP_CUT_VELOCITY: real := -6.0
  /** Frames after leaving a ledge during which a jump is still allowed. */
  const COYOTE_FRAMES: int := 6
  /** Frames a jump press is remembered before landing. */
  const JUMP_BUFFER_FRAMES: int := 8
}
