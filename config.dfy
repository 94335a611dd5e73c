/** Tuning constants of the particle field (js/config.js), one per entry.
    The two entries that depend on the viewport width are functions of it. */
module Config {

  /* ── Particle count and size scale: chosen by viewport width ── */
  const NARROW_VIEWPORT := 600

  function PeakCount(innerWidth: int): (n: nat)
    ensures n == 18 || n == 20
    ensures n == 20 <==> innerWidth <= NARROW_VIEWPORT
  {
    if innerWidth <= NARROW_VIEWPORT then 20 else 18
  }

  function SizeScale(innerWidth: int): (s: real)
    ensures 0.0 < s <= 0.8
  {
    if innerWidth <= NARROW_VIEWPORT then 0.29 else 0.8
  }

  /* ── Spawn ── */
  const SPAWN_X_OFFSET: real := 0.33
  const SPAWN_X_SPREAD: real := 0.08

  /* ── Sizes (before SIZE_SCALE) ── */
  const START_SIZE_MIN: real := 0.02
  const START_SIZE_MAX: real := 0.05
  const MAX_SIZE_MIN: real := 0.20
  const MAX_SIZE_MAX: real := 0.42
  const SMALL_PROBABILITY: real := 0.34
  const SMALL_MAX_SIZE_MIN: real := 0.05
  const SMALL_MAX_SIZE_MAX: real := 0.10

  /* ── Fade in / out ── */
  const FADE_IN_DURATION: real := 0.9
  const FADE_OUT_START: real := 0.92
  /** The x at which a live particle is fully faded out and destroyed. */
  const EXIT_X: real := 1.18

  /* ── Travel ── */
  const VELOCITY_MIN: real := 0.019
  const VELOCITY_MAX: real := 0.040

  /* ── Funnel spread ── */
  const SPAWN_Y_CENTER: real := 0.50
  const SPAWN_Y_SPREAD: real := 0.08
  const MAX_Y_SPREAD: real := 0.44

  const Y_DRIFT_SPEED: real := 0.18
  /** Drift strength stops growing once x reaches this value. */
  const DRIFT_X_CAP: real := 0.8

  /* ── Colour ── */
  const WHITE_PROBABILITY: real := 0.75
  const COLOR_WHITE: nat := 0xffffff
  const COLOR_DARK: nat := 0x050505

  /* ── Squircle geometry ── */
  const SQUIRCLE_EXPONENT_MIN: real := 2.5
  const SQUIRCLE_EXPONENT_MAX: real := 4.5
  const SEGMENTS_MIN: int := 80
  const SEGMENTS_MAX: int := 120
  const SHAPE_ASPECT_MIN: real := 0.82
  const SHAPE_ASPECT_MAX: real := 1.22

  const GROWTH_EASE: real := 2.2

  /* ── Pointer interaction ── */
  const INTERACTION_RADIUS: real := 0.18
  const IMPULSE_STRENGTH: real := 0.18
  const VELOCITY_SCALE: real := 0.5
  const FLOW_RESTORE: real := 0.6
  const FRICTION: real := 0.92

  /* ── Particle-to-particle wake propagation ── */
  const PROP_RADIUS: real := 0.22
  const PROP_STRENGTH: real := 0.08
  const PROP_DECAY: real := 0.55

  /* ── Wake and poof ── */
  const WAKE_DELAY_MIN: real := 0.0
  const WAKE_DELAY_MAX: real := 0.15
  const WAKE_DURATION_MIN: real := 0.4
  const WAKE_DURATION_MAX: real := 0.8
  const POOF_SPEED_MIN: real := 0.08
  const POOF_SPEED_MAX: real := 0.28
  const POOF_DURATION_MIN: real := 0.35
  const POOF_DURATION_MAX: real := 0.95

  /* ── Stencil render order ── */
  const RENDER_ORDER_STENCIL_WRITE: real := 0.0
  const RENDER_ORDER_SOLID_COLOR: real := 1.0
  const RENDER_ORDER_IMAGE_REVEAL: real := 2.0

  /** The frame driver hands every update a delta time clamped to at most 50 ms;
      the clock it reads never runs backwards. */
  const MAX_DT: real := 0.05

  predicate FrameDt(dt: real) {
    0.0 <= dt <= MAX_DT
  }
}
