/** The pointer tracker of js/input.js: the last pointer position in
    normalised coordinates (0..1, y up), the position one frame earlier, an
    exponentially smoothed velocity, and whether the pointer is on screen. */
module Input {

  /** The module's variables, as one record. */
  datatype PointerState = PointerState(
    x: real, y: real, px: real, py: real, vx: real, vy: real, active: bool)

  /** -1 marks "off screen until the first event". */
  const OFF_SCREEN: real := -1.0

  const START: PointerState := PointerState(OFF_SCREEN, OFF_SCREEN, OFF_SCREEN, OFF_SCREEN, 0.0, 0.0, false)

  /** The weight of a new velocity sample in the smoothing filter. */
  const SMOOTHING: real := 0.25

  /** One step of the filter: v moves a quarter of the way towards raw. */
  function Smooth(v: real, raw: real): real {
    v + (raw - v) * SMOOTHING
  }

  /** _onMove(e): the pointer is on screen at the event's position, scaled
      to the viewport and with y flipped upwards. */
  function Moved(s: PointerState, clientX: real, clientY: real, innerWidth: real, innerHeight: real): PointerState
    requires innerWidth > 0.0 && innerHeight > 0.0
  {
    s.(active := true, x := clientX / innerWidth, y := 1.0 - clientY / innerHeight)
  }

  /** _onLeave(): off screen, and the velocity is dropped. */
  function Left(s: PointerState): PointerState {
    s.(active := false, vx := 0.0, vy := 0.0)
  }

  /** update(dt): the velocity filter takes the sample (x - px) / dt only for
      an on-screen pointer with a previous position and a positive dt; in
      every case the previous position becomes the current one. */
  function Tracked(s: PointerState, dt: real): PointerState {
    if !s.active || dt <= 0.0 || s.px < 0.0 then s.(px := s.x, py := s.y)
    else
      var rawVx := (s.x - s.px) / dt;
      var rawVy := (s.y - s.py) / dt;
      s.(vx := Smooth(s.vx, rawVx), vy := Smooth(s.vy, rawVy), px := s.x, py := s.y)
  }

  /** The filter keeps three quarters of the old distance to the sample: the
      result lies between the old velocity and the sample. */
  lemma SmoothTowards(v: real, raw: real)
    ensures Smooth(v, raw) - raw == 0.75 * (v - raw)
    ensures v <= raw ==> v <= Smooth(v, raw) <= raw
    ensures raw <= v ==> raw <= Smooth(v, raw) <= v
  {
    assert Smooth(v, raw) - raw == (v - raw) - (v - raw) * 0.25;
  }

  /** A move inside the viewport lands in the unit square. */
  lemma MovedInView(s: PointerState, clientX: real, clientY: real, innerWidth: real, innerHeight: real)
    requires innerWidth > 0.0 && innerHeight > 0.0
    requires 0.0 <= clientX <= innerWidth && 0.0 <= clientY <= innerHeight
    ensures var r := Moved(s, clientX, clientY, innerWidth, innerHeight);
      && r.active && 0.0 <= r.x <= 1.0 && 0.0 <= r.y <= 1.0
      && r.(active := s.active, x := s.x, y := s.y) == s
  {
    assert (clientX / innerWidth) * innerWidth == clientX;
    assert (clientY / innerHeight) * innerHeight == clientY;
  }

  /** update(dt) always records the current position as the previous one and
      never changes the position or the on-screen flag; the velocity stays as
      it was for an off-screen pointer, for dt <= 0 and before a previous
      position exists, and otherwise moves a quarter of the way to the sample. */
  lemma TrackedEffect(s: PointerState, dt: real)
    ensures var r := Tracked(s, dt);
      && r.px == s.x && r.py == s.y
      && r.x == s.x && r.y == s.y && r.active == s.active
      && (!s.active || dt <= 0.0 || s.px < 0.0 ==> r.vx == s.vx && r.vy == s.vy)
      && (s.active && dt > 0.0 && s.px >= 0.0 ==>
            && r.vx - (s.x - s.px) / dt == 0.75 * (s.vx - (s.x - s.px) / dt)
            && r.vy - (s.y - s.py) / dt == 0.75 * (s.vy - (s.y - s.py) / dt))
  {
    if s.active && dt > 0.0 && s.px >= 0.0 {
      SmoothTowards(s.vx, (s.x - s.px) / dt);
      SmoothTowards(s.vy, (s.y - s.py) / dt);
    }
  }

  /** The first move after start-up causes no velocity spike: the first update
      only records the position (px is still -1), whatever the event. */
  lemma FirstMoveIsQuiet(clientX: real, clientY: real, innerWidth: real, innerHeight: real, dt: real)
    requires innerWidth > 0.0 && innerHeight > 0.0
    ensures var r := Tracked(Moved(START, clientX, clientY, innerWidth, innerHeight), dt);
      r.vx == 0.0 && r.vy == 0.0 && r.px == clientX / innerWidth
  {
  }

  /** A pointer resting in place loses a quarter of its velocity every frame. */
  lemma RestingPointerSlows(s: PointerState, dt: real)
    requires s.active && dt > 0.0 && s.px >= 0.0 && s.x == s.px && s.y == s.py
    ensures Tracked(s, dt).vx == 0.75 * s.vx && Tracked(s, dt).vy == 0.75 * s.vy
  {
    TrackedEffect(s, dt);
  }

  class Pointer {
    var x: real
    var y: real
    var px: real
    var py: real
    var vx: real
    var vy: real
    var active: bool

    function State(): PointerState
      reads this
    {
      PointerState(x, y, px, py, vx, vy, active)
    }

    /** The module's start values: off screen, at rest, inactive. */
    constructor ()
      ensures State() == START
    {
      x, y := OFF_SCREEN, OFF_SCREEN;
      px, py := OFF_SCREEN, OFF_SCREEN;
      vx, vy := 0.0, 0.0;
      active := false;
    }

    /** _onMove(e), with the viewport size at the time of the event. */
    method OnMove(clientX: real, clientY: real, innerWidth: real, innerHeight: real)
      requires innerWidth > 0.0 && innerHeight > 0.0
      modifies this
      ensures State() == Moved(old(State()), clientX, clientY, innerWidth, innerHeight)
    {
      active := true;
      x := clientX / innerWidth;
      y := 1.0 - clientY / innerHeight;
    }

    /** _onLeave(). */
    method OnLeave()
      modifies this
      ensures State() == Left(old(State()))
    {
      active := false;
      vx := 0.0;
      vy := 0.0;
    }

    /** update(dt). */
    method Update(dt: real)
      modifies this
      ensures State() == Tracked(old(State()), dt)
    {
      if !active || dt <= 0.0 || px < 0.0 {
        px, py := x, y;
        return;
      }
      var rawVx := (x - px) / dt;
      var rawVy := (y - py) / dt;
      vx := vx + (rawVx - vx) * SMOOTHING;
      vy := vy + (rawVy - vy) * SMOOTHING;
      px, py := x, y;
    }

    /** getPosition(). */
    method GetPosition() returns (cx: real, cy: real)
      ensures cx == State().x && cy == State().y
    {
      cx, cy := x, y;
    }

    /** getVelocity(). */
    method GetVelocity() returns (cvx: real, cvy: real)
      ensures cvx == State().vx && cvy == State().vy
    {
      cvx, cvy := vx, vy;
    }

    /** isActive(). */
    method IsActive() returns (a: bool)
      ensures a == State().active
    {
      a := active;
    }
  }
}
