/** The Particle class of js/particle.js: its fields are updated in place, and
    each method is specified by the matching function of ParticleSpec applied
    to the snapshot of the fields before the call. */
module Particles {
  import opened Wrappers
  import opened Numeric
  import opened Config
  import opened Easing
  import opened Geometry
  import opened Scene
  import opened Assets
  import opened ParticleSpec

  class Particle {
    // fixed at construction
    const texture: Option<Texture>
    const zOrder: nat
    const scenes: Scenes
    const segments: nat
    const exponent: real
    const stretch: real
    const positions: seq<Vertex>
    const indices: seq<nat>
    const isWhite: bool
    const imageFit: Option<Fit>
    const imageRenderOrder: real
    const velocity: real
    const targetY: real
    const startSize: real
    const maxSize: real
    const wakeDelay: real
    const wakeDuration: real

    // changing
    var state: ParticleState
    var alive: bool
    var aspect: real
    var x: real
    var y: real
    var vx: real
    var vy: real
    var size: real
    var opacity: real
    var fadeAge: real
    var wakeTimer: real
    var poofVX: real
    var poofVY: real
    var poofTimer: real
    var poofDuration: real
    var sizeAtPoof: real
    var stencilMesh: Transform
    var solidMesh: Transform
    var imageMesh: Transform

    /** The fields as a value of the specification's record. */
    function Snapshot(): Body
      reads this
    {
      Body(zOrder, velocity, targetY, startSize, maxSize, wakeDelay, wakeDuration,
           state, alive, aspect, x, y, vx, vy, size, opacity, fadeAge, wakeTimer,
           poofVX, poofVY, poofTimer, poofDuration, sizeAtPoof,
           stencilMesh, solidMesh, imageMesh)
    }

    ghost predicate Valid()
      reads this
    {
      ParticleSpec.Valid(Snapshot())
    }

    /** new Particle(texture, zOrder): the geometry skeleton, the colour draw,
        the cover-fit of the texture, the three meshes added to the scenes and
        the initial state. `viewAspect` is the viewport's W / H,
        `sizeScale` the viewport's SIZE_SCALE, and `d` the constructor's draws. */
    constructor (texture: Option<Texture>, zOrder: nat, scenes: Scenes,
                 viewAspect: real, sizeScale: real, d: Draws)
      requires viewAspect > 0.0 && sizeScale > 0.0 && DrawsValid(d)
      modifies scenes
      ensures Snapshot() == Initial(zOrder, viewAspect, sizeScale, d)
      ensures Valid()
      ensures this.texture == texture && this.zOrder == zOrder && this.scenes == scenes
      ensures SEGMENTS_MIN <= segments <= SEGMENTS_MAX
      ensures |positions| == segments + 2 && |indices| == 3 * segments
      ensures forall k :: 0 <= k < |indices| ==> indices[k] < |positions|
      ensures SQUIRCLE_EXPONENT_MIN <= exponent <= SQUIRCLE_EXPONENT_MAX
      ensures SHAPE_ASPECT_MIN <= stretch <= SHAPE_ASPECT_MAX
      ensures isWhite <==> d.white < WHITE_PROBABILITY
      ensures imageFit == CoverFit(texture, 1.0)
      ensures imageRenderOrder == RENDER_ORDER_IMAGE_REVEAL + zOrder as real * 0.001
      ensures scenes.Contents() == old(scenes.Contents()).With(zOrder)
    {
      this.texture := texture;
      this.zOrder := zOrder;
      this.scenes := scenes;

      // _buildGeometry
      var n := RandInt(SEGMENTS_MIN, SEGMENTS_MAX, d.segments);
      segments := n;
      exponent := Rand(SQUIRCLE_EXPONENT_MIN, SQUIRCLE_EXPONENT_MAX, d.exponent);
      stretch := Rand(SHAPE_ASPECT_MIN, SHAPE_ASPECT_MAX, d.stretch);
      var fanPositions, fanIndices := BuildFan(n);
      positions, indices := fanPositions, fanIndices;

      // _buildMaterials
      isWhite := d.white < WHITE_PROBABILITY;
      imageFit := CoverFit(texture, 1.0);

      // _buildMeshes
      imageRenderOrder := RENDER_ORDER_IMAGE_REVEAL + zOrder as real * 0.001;

      // _initState: the fixed parameters
      targetY := Around(SPAWN_Y_CENTER, d.targetY, MAX_Y_SPREAD);
      startSize := InitialStartSize(sizeScale, d);
      maxSize := InitialMaxSize(sizeScale, d);
      velocity := Rand(VELOCITY_MIN, VELOCITY_MAX, d.velocity);
      wakeDelay := Rand(WAKE_DELAY_MIN, WAKE_DELAY_MAX, d.wakeDelay);
      wakeDuration := Rand(WAKE_DURATION_MIN, WAKE_DURATION_MAX, d.wakeDuration);

      // _initState: the changing state
      var blank := Transform(false, 0.0, 0.0, 0.0, 0.0, 0.0, 0.0);
      aspect, x, y, vx, vy := viewAspect,
        Around(SPAWN_X_OFFSET, d.x, SPAWN_X_SPREAD),
        Around(SPAWN_Y_CENTER, d.y, SPAWN_Y_SPREAD),
        velocity, 0.0;
      state, opacity, size, fadeAge, alive, wakeTimer := Sleeping, 0.0, 0.0, 0.0, true, 0.0;
      poofVX, poofVY, poofTimer, poofDuration, sizeAtPoof := 0.0, 0.0, 0.0, 0.0, 0.0;
      stencilMesh, solidMesh, imageMesh := blank, blank, blank;
      new;
      assert Snapshot() == Placed(zOrder, viewAspect, sizeScale, d);
      scenes.AddMeshes(zOrder);
      ApplyTransform();
    }

    /** wake(). */
    method Wake()
      modifies this
      ensures Snapshot() == ParticleSpec.Wake(old(Snapshot()))
    {
      if state != Sleeping {
        return;
      }
      wakeTimer := 0.0;
    }

    /** poof(), with the draws for the duration, the angle and the speed. */
    method Poof(d: PoofDraws, m: Ops)
      requires PoofDrawsValid(d)
      modifies this
      ensures Snapshot() == ParticleSpec.Poof(old(Snapshot()), d, m)
    {
      if state == Poofing || !alive {
        return;
      }
      state := Poofing;
      sizeAtPoof := size;
      poofTimer := 0.0;
      poofDuration := Rand(POOF_DURATION_MIN, POOF_DURATION_MAX, d.duration);
      var angle := d.angle * PI * 2.0;
      var speed := Rand(POOF_SPEED_MIN, POOF_SPEED_MAX, d.speed);
      poofVX := m.cos(angle) * speed;
      poofVY := m.sin(angle) * speed;
    }

    /** applyImpulse(cursor, vel). */
    method ApplyImpulse(cx: real, cy: real, cvx: real, cvy: real, m: Ops)
      modifies this
      ensures Snapshot() == Impulse(old(Snapshot()), cx, cy, cvx, cvy, m)
    {
      if state != Live {
        return;
      }
      var dx := OffsetX(Snapshot(), cx);
      var dy := OffsetY(Snapshot(), cy);
      var dist := Hypot(dx, dy, m);
      if dist > INTERACTION_RADIUS || dist < 0.001 {
        return;
      }
      var magnitude := ImpulseMagnitude(dist, Hypot(cvx, cvy, m));
      vx, vy := vx + Push(dx, dist, magnitude), vy + Push(dy, dist, magnitude);
    }

    /** getExcess(). */
    method GetExcess() returns (ex: real, ey: real)
      ensures ex == Excess(Snapshot()).0 && ey == Excess(Snapshot()).1
    {
      var naturalVY := (targetY - y) * DriftStrength(x);
      ex := vx - velocity;
      ey := vy - naturalVY;
    }

    /** receiveWake(ex, ey). */
    method ReceiveWake(ex: real, ey: real)
      modifies this
      ensures Snapshot() == Receive(old(Snapshot()), ex, ey)
    {
      if state != Live {
        return;
      }
      vx := vx + ex;
      vy := vy + ey;
    }

    /** isAlive(). */
    method IsAlive() returns (a: bool)
      ensures a == alive
    {
      a := alive;
    }

    /** update(dt), with `viewAspect` the viewport's W / H this frame. The
        scenes lose the particle's meshes exactly when the step destroys it. */
    method Update(dt: real, viewAspect: real, m: Ops)
      requires Valid() && FrameDt(dt) && viewAspect > 0.0 && Lawful(m)
      modifies this, scenes
      ensures Snapshot() == Step(old(Snapshot()), dt, viewAspect, m)
      ensures Valid()
      ensures scenes.Contents() ==
        if old(alive) && !alive then old(scenes.Contents()).Without(zOrder) else old(scenes.Contents())
    {
      StepPreservesValid(Snapshot(), dt, viewAspect, m);
      if !alive {
        return;
      }
      match state
      case Sleeping => UpdateSleeping(dt, m);
      case Live => UpdateLive(dt, viewAspect, m);
      case Poofing => UpdatePoofing(dt);
    }

    /** _updateSleeping(dt). */
    method UpdateSleeping(dt: real, m: Ops)
      requires alive && state == Sleeping && wakeDuration > 0.0 && aspect > 0.0
      modifies this
      ensures Snapshot() == SleepStep(old(Snapshot()), dt, m)
    {
      var timer := wakeTimer + dt;
      if timer < wakeDelay {
        wakeTimer := timer;
        return;
      }
      var progress := WakeProgress(Snapshot(), timer);
      var grown := SleepMove(Snapshot(), dt, m);
      wakeTimer := timer;
      SetPosition(grown.x, grown.y);
      SetLook(grown.size, grown.opacity);
      assert Snapshot() == grown;

      if progress >= 1.0 {
        BecomeLive();
      }
      ApplyTransform();
    }

    /** _updateLive(dt). */
    method UpdateLive(dt: real, viewAspect: real, m: Ops)
      requires alive && state == Live && viewAspect > 0.0
      modifies this, scenes
      ensures Snapshot() == LiveStep(old(Snapshot()), dt, viewAspect, m)
      ensures scenes.Contents() == if alive then old(scenes.Contents()) else old(scenes.Contents()).Without(zOrder)
    {
      var moved := LiveMove(Snapshot(), dt, viewAspect, m);
      fadeAge, aspect := moved.fadeAge, moved.aspect;
      SetVelocity(moved.vx, moved.vy);
      SetPosition(moved.x, moved.y);
      SetLook(moved.size, moved.opacity);
      assert Snapshot() == moved;

      if x > EXIT_X {
        Destroy();
        return;
      }
      ApplyTransform();
    }

    /** _updatePoofing(dt). */
    method UpdatePoofing(dt: real)
      requires alive && state == Poofing && poofDuration > 0.0 && aspect > 0.0
      modifies this, scenes
      ensures Snapshot() == PoofStep(old(Snapshot()), dt)
      ensures scenes.Contents() == if alive then old(scenes.Contents()) else old(scenes.Contents()).Without(zOrder)
    {
      var shrunk := PoofMove(Snapshot(), dt);
      var t := PoofProgress(Snapshot(), shrunk.poofTimer);
      poofTimer := shrunk.poofTimer;
      SetPosition(shrunk.x, shrunk.y);
      SetLook(shrunk.size, shrunk.opacity);
      assert Snapshot() == shrunk;

      if t >= 1.0 {
        Destroy();
        return;
      }
      ApplyTransform();
    }

    /** The end of the wake ramp: LIVE, with the fade-in already complete. */
    method BecomeLive()
      modifies this
      ensures Snapshot() == old(Snapshot()).(state := Live, fadeAge := FADE_IN_DURATION)
    {
      state := Live;
      fadeAge := FADE_IN_DURATION;
    }

    /** Sets the velocity; nothing else changes. */
    method SetVelocity(newVX: real, newVY: real)
      modifies this
      ensures Snapshot() == old(Snapshot()).(vx := newVX, vy := newVY)
    {
      vx, vy := newVX, newVY;
    }

    /** Sets the position; nothing else changes. */
    method SetPosition(newX: real, newY: real)
      modifies this
      ensures Snapshot() == old(Snapshot()).(x := newX, y := newY)
    {
      x, y := newX, newY;
    }

    /** Sets the size and the opacity; nothing else changes. */
    method SetLook(newSize: real, newOpacity: real)
      modifies this
      ensures Snapshot() == old(Snapshot()).(size := newSize, opacity := newOpacity)
    {
      size, opacity := newSize, newOpacity;
    }

    /** _applyTransform(). */
    method ApplyTransform()
      requires aspect > 0.0
      modifies this
      ensures Snapshot() == ParticleSpec.ApplyTransform(old(Snapshot()))
    {
      var scaleX := size / aspect;
      var scaleY := size;
      var z := (zOrder % 100) as real * 0.08 - 4.0;
      var visible := opacity > 0.0;
      var t := Transform(visible, x, y, z, scaleX, scaleY, opacity);
      stencilMesh, solidMesh, imageMesh := t, t, t;
    }

    /** destroy(): the particle is marked dead and its meshes leave the scenes;
        nothing else about it changes. */
    method Destroy()
      modifies this, scenes
      ensures Snapshot() == old(Snapshot()).(alive := false)
      ensures scenes.Contents() == old(scenes.Contents()).Without(zOrder)
    {
      alive := false;
      scenes.RemoveMeshes(zOrder);
    }
  }
}
