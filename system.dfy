/** The ParticleSystem of js/system.js: the pool of particles, its z-counter,
    its state and its spawn clock, updated in place. Each method is specified
    by the functions of SystemSpec applied to the records of the particles
    before the call. */
module Pool {
  import opened Wrappers
  import opened Numeric
  import opened Config
  import opened Easing
  import opened Scene
  import opened Assets
  import opened ParticleSpec
  import opened Particles
  import opened SystemSpec
  import opened Input

  /** The records of a sequence of particles. */
  function Bodies(ps: seq<Particle>): (bs: seq<Body>)
    reads set p | p in ps
    ensures |bs| == |ps| && forall k {:trigger bs[k]} :: 0 <= k < |ps| ==> bs[k] == ps[k].Snapshot()
  {
    seq(|ps|, k requires 0 <= k < |ps| reads ps => ps[k].Snapshot())
  }

  /** z-orders strictly increase along the pool: it is in creation order and
      holds no particle twice. */
  predicate Ordered(ps: seq<Particle>) {
    forall i, j :: 0 <= i < j < |ps| ==> ps[i].zOrder < ps[j].zOrder
  }

  /** The z-orders of the pooled particles. */
  function ZOrders(ps: seq<Particle>): set<nat> {
    set k | 0 <= k < |ps| :: ps[k].zOrder
  }

  /** What the scenes hold when they hold exactly the meshes of the pool. */
  function Registered(ps: seq<Particle>): Layers {
    Layers(ZOrders(ps), ZOrders(ps), ZOrders(ps))
  }

  lemma ZOrdersAppend(ps: seq<Particle>, p: Particle)
    ensures ZOrders(ps + [p]) == ZOrders(ps) + {p.zOrder}
  {
    var qs := ps + [p];
    forall z | z in ZOrders(ps) + {p.zOrder}
      ensures z in ZOrders(qs)
    {
      if z == p.zOrder {
        assert qs[|ps|].zOrder == z;
      } else {
        var k :| 0 <= k < |ps| && ps[k].zOrder == z;
        assert qs[k].zOrder == z;
      }
    }
  }

  lemma ZOrdersRemove(ps: seq<Particle>, i: nat)
    requires Ordered(ps) && i < |ps|
    ensures ZOrders(ps[..i] + ps[i + 1..]) == ZOrders(ps) - {ps[i].zOrder}
  {
    var qs := ps[..i] + ps[i + 1..];
    forall z | z in ZOrders(qs)
      ensures z in ZOrders(ps) - {ps[i].zOrder}
    {
      var k :| 0 <= k < |qs| && qs[k].zOrder == z;
      if k < i {
        assert qs[k] == ps[k];
      } else {
        assert qs[k] == ps[k + 1];
      }
    }
    forall z | z in ZOrders(ps) - {ps[i].zOrder}
      ensures z in ZOrders(qs)
    {
      var k :| 0 <= k < |ps| && ps[k].zOrder == z;
      if k < i {
        assert qs[k] == ps[k];
      } else {
        assert qs[k - 1] == ps[k];
      }
    }
  }

  /** The pool's links to the scenes: in creation order, every z-order below
      the counter, every particle registered with these scenes, and the scenes
      holding exactly the pooled particles' meshes. */
  ghost predicate Linked(ps: seq<Particle>, zCounter: nat, scenes: Scenes)
    reads scenes
  {
    && Ordered(ps)
    && (forall k :: 0 <= k < |ps| ==> ps[k].zOrder < zCounter && ps[k].scenes == scenes)
    && scenes.Contents() == Registered(ps)
  }

  /** The pool's invariant: linked to the scenes, and every particle valid and alive. */
  ghost predicate PoolValid(ps: seq<Particle>, zCounter: nat, scenes: Scenes)
    reads scenes, set p | p in ps
  {
    Linked(ps, zCounter, scenes) && Healthy(Bodies(ps))
  }

  lemma AppendAssoc<T>(a: seq<T>, b: seq<T>, c: seq<T>)
    ensures a + (b + c) == (a + b) + c
  {
    var lhs := a + (b + c);
    var rhs := (a + b) + c;
    assert |lhs| == |rhs|;
    forall k | 0 <= k < |lhs|
      ensures lhs[k] == rhs[k]
    {
    }
  }

  /** Dropping particle i drops its record. */
  lemma BodiesRemove(ps: seq<Particle>, i: nat)
    requires i < |ps|
    ensures Bodies(ps[..i] + ps[i + 1..]) == Bodies(ps)[..i] + Bodies(ps)[i + 1..]
  {
    var qs := ps[..i] + ps[i + 1..];
    var bs := Bodies(ps);
    var lhs := Bodies(qs);
    var rhs := bs[..i] + bs[i + 1..];
    assert |lhs| == |rhs|;
    forall k | 0 <= k < |lhs|
      ensures lhs[k] == rhs[k]
    {
      if k < i {
        assert qs[k] == ps[k];
      } else {
        assert qs[k] == ps[k + 1];
      }
    }
  }

  /** One turn of the step-and-cull loop on the records: with the records
      from i + 1 on already culled, stepping record i and dropping it when the
      step destroyed it leaves the records from i on culled. */
  lemma StepAtCull(B0: seq<Body>, bs: seq<Body>, i: nat, dt: real, aspect: real, m: Ops)
    requires Healthy(B0) && aspect > 0.0 && i < |B0|
    requires bs == B0[..i + 1] + Culled(B0[i + 1..], dt, aspect, m)
    ensures var s := Step(B0[i], dt, aspect, m);
      && (s.alive ==> bs[i := s] == B0[..i] + Culled(B0[i..], dt, aspect, m))
      && (!s.alive ==> bs[i := s][..i] + bs[i := s][i + 1..] == B0[..i] + Culled(B0[i..], dt, aspect, m))
  {
    var s := Step(B0[i], dt, aspect, m);
    var rest := Culled(B0[i + 1..], dt, aspect, m);
    assert B0[i..][0] == B0[i] && B0[i..][1..] == B0[i + 1..];
    assert Culled(B0[i..], dt, aspect, m) == (if s.alive then [s] else []) + rest;
    var cs := bs[i := s];
    if s.alive {
      var rhs := B0[..i] + ([s] + rest);
      assert |cs| == |rhs|;
      forall k | 0 <= k < |cs|
        ensures cs[k] == rhs[k]
      {
      }
    } else {
      var lhs := cs[..i] + cs[i + 1..];
      var rhs := B0[..i] + rest;
      assert |lhs| == |rhs|;
      forall k | 0 <= k < |lhs|
        ensures lhs[k] == rhs[k]
      {
      }
    }
  }

  lemma OrderedGrows(ps: seq<Particle>, zCounter: nat, p: Particle)
    requires Ordered(ps) && forall k :: 0 <= k < |ps| ==> ps[k].zOrder < zCounter
    requires p.zOrder == zCounter
    ensures Ordered(ps + [p])
  {
  }

  lemma BelowCounterGrows(ps: seq<Particle>, zCounter: nat, scenes: Scenes, p: Particle)
    requires forall k :: 0 <= k < |ps| ==> ps[k].zOrder < zCounter && ps[k].scenes == scenes
    requires p.zOrder == zCounter && p.scenes == scenes
    ensures forall k :: 0 <= k < |ps + [p]| ==> (ps + [p])[k].zOrder < zCounter + 1 && (ps + [p])[k].scenes == scenes
  {
  }

  lemma HealthyGrows(ps: seq<Particle>, p: Particle)
    requires Healthy(Bodies(ps)) && ParticleSpec.Valid(p.Snapshot()) && p.alive
    ensures Healthy(Bodies(ps + [p]))
  {
    assert Bodies(ps + [p]) == Bodies(ps) + [p.Snapshot()];
  }

  /** Appending a valid, alive particle that carries the counter's z-order
      and whose meshes were just added keeps the pool valid once the counter
      moves on. */
  lemma PoolGrows(ps: seq<Particle>, zCounter: nat, scenes: Scenes, p: Particle)
    requires Ordered(ps) && Healthy(Bodies(ps))
    requires forall k :: 0 <= k < |ps| ==> ps[k].zOrder < zCounter && ps[k].scenes == scenes
    requires p.zOrder == zCounter && p.scenes == scenes && ParticleSpec.Valid(p.Snapshot()) && p.alive
    requires scenes.Contents() == Registered(ps).With(zCounter)
    ensures PoolValid(ps + [p], zCounter + 1, scenes)
  {
    OrderedGrows(ps, zCounter, p);
    BelowCounterGrows(ps, zCounter, scenes, p);
    HealthyGrows(ps, p);
    ZOrdersAppend(ps, p);
  }

  class ParticleSystem {
    const scenes: Scenes
    const assets: TextureSet
    /** window.innerWidth when the configuration was read: it fixes
        PEAK_COUNT and SIZE_SCALE. */
    const innerWidth: int

    var particles: seq<Particle>
    var zCounter: nat
    var sysState: SysState
    var spawnTimer: real
    var spawnInterval: real
    var firstWake: bool

    /** The pool's invariant, on the fields it concerns. */
    ghost predicate Valid()
      reads this, scenes, set p | p in particles
    {
      PoolValid(particles, zCounter, scenes)
    }

    /** The system's state as a value. */
    ghost function Record(): Sys
      reads this, set p | p in particles
    {
      Sys(Bodies(particles), zCounter, sysState, spawnTimer, spawnInterval, firstWake)
    }

    /** The module's start values: no particles, DORMANT, first wake pending. */
    constructor (scenes: Scenes, assets: TextureSet, innerWidth: int)
      requires scenes.Contents() == Layers({}, {}, {})
      ensures Valid()
      ensures this.scenes == scenes && this.assets == assets && this.innerWidth == innerWidth
      ensures particles == [] && zCounter == 0 && sysState == SysDormant
      ensures spawnTimer == 0.0 && spawnInterval == 0.0 && firstWake
    {
      this.scenes := scenes;
      this.assets := assets;
      this.innerWidth := innerWidth;
      particles := [];
      zCounter := 0;
      sysState := SysDormant;
      spawnTimer := 0.0;
      spawnInterval := 0.0;
      firstWake := true;
      new;
      assert ZOrders([]) == {};
    }

    /** init(): the spawn interval is drawn, then three sleeping particles
        are seeded at SeedX(0), SeedX(1), SeedX(2), each with the next texture. */
    method Init(r: real, viewAspect: real, ds: seq<Draws>)
      requires Valid() && Unit(r) && viewAspect > 0.0
      requires |ds| == SEED_COUNT && forall k :: 0 <= k < |ds| ==> DrawsValid(ds[k])
      modifies this, scenes, assets
      ensures Valid()
      ensures spawnInterval == SpawnInterval(PeakCount(innerWidth), r)
      ensures zCounter == old(zCounter) + SEED_COUNT
      ensures |particles| == old(|particles|) + SEED_COUNT && particles[..old(|particles|)] == old(particles)
      ensures Bodies(particles) == old(Bodies(particles)) + Seeds(old(zCounter), viewAspect, SizeScale(innerWidth), ds)
      ensures sysState == old(sysState) && spawnTimer == old(spawnTimer) && firstWake == old(firstWake)
      ensures assets.textures == old(assets.textures)
      ensures forall k :: 0 <= k < SEED_COUNT ==>
        particles[old(|particles|) + k].texture == Dealt(old(assets.textures), old(assets.cursor), k)
      ensures assets.cursor == CursorAfter(old(assets.textures), old(assets.cursor), SEED_COUNT)
    {
      UpdateSpawnInterval(r);
      ghost var ps0 := particles;
      ghost var B0 := Bodies(particles);
      ghost var z0 := zCounter;
      ghost var seeds := Seeds(z0, viewAspect, SizeScale(innerWidth), ds);
      var i := 0;
      assert seeds[..0] == [] && B0 + [] == B0;
      while i < SEED_COUNT
        invariant 0 <= i <= SEED_COUNT
        invariant Valid()
        invariant zCounter == z0 + i
        invariant |particles| == |ps0| + i && particles[..|ps0|] == ps0
        invariant Bodies(particles) == B0 + seeds[..i]
        invariant spawnInterval == SpawnInterval(PeakCount(innerWidth), r)
        invariant sysState == old(sysState) && spawnTimer == old(spawnTimer) && firstWake == old(firstWake)
        invariant assets.textures == old(assets.textures)
        invariant assets.cursor == CursorAfter(old(assets.textures), old(assets.cursor), i)
        invariant forall k :: 0 <= k < i ==> particles[|ps0| + k].texture == Dealt(old(assets.textures), old(assets.cursor), k)
      {
        DealtInTurn(assets.textures, old(assets.cursor), i, 0);
        DealtInTurn(assets.textures, old(assets.cursor), i, 1);
        SeedAt(i, viewAspect, ds, z0, B0, ps0);
        i := i + 1;
      }
      assert seeds[..SEED_COUNT] == seeds;
    }

    /** One turn of init()'s loop: seed i is constructed and placed at SeedX(i). */
    method SeedAt(i: nat, viewAspect: real, ds: seq<Draws>, ghost z0: nat, ghost B0: seq<Body>, ghost ps0: seq<Particle>)
      requires Valid() && viewAspect > 0.0 && i < SEED_COUNT
      requires |ds| == SEED_COUNT && forall k :: 0 <= k < |ds| ==> DrawsValid(ds[k])
      requires zCounter == z0 + i
      requires |particles| == |ps0| + i && particles[..|ps0|] == ps0
      requires Bodies(particles) == B0 + Seeds(z0, viewAspect, SizeScale(innerWidth), ds)[..i]
      modifies this, scenes, assets
      ensures Valid()
      ensures zCounter == z0 + i + 1
      ensures |particles| == |ps0| + i + 1 && particles[..|ps0|] == ps0
      ensures Bodies(particles) == B0 + Seeds(z0, viewAspect, SizeScale(innerWidth), ds)[..i + 1]
      ensures spawnInterval == old(spawnInterval) && sysState == old(sysState)
      ensures spawnTimer == old(spawnTimer) && firstWake == old(firstWake)
      ensures particles[..|ps0| + i] == old(particles)
      ensures assets.textures == old(assets.textures)
      ensures particles[old(|particles|)].texture == Dealt(old(assets.textures), old(assets.cursor), 0)
      ensures assets.cursor == CursorAfter(old(assets.textures), old(assets.cursor), 1)
    {
      ghost var seeds := Seeds(z0, viewAspect, SizeScale(innerWidth), ds);
      var x := SeedX(i);
      ghost var seed := Initial(zCounter, viewAspect, SizeScale(innerWidth), ds[i]).(x := x);
      SpawnAt(x, viewAspect, ds[i]);
      assert Bodies(particles) == (B0 + seeds[..i]) + [seed];
      SeedsPrefix(z0, viewAspect, SizeScale(innerWidth), ds, i);
      assert seeds[..i + 1] == seeds[..i] + [seed];
      AppendAssoc(B0, seeds[..i], [seed]);
      assert particles[..|ps0|] == old(particles)[..|ps0|];
    }

    /** The construction shared by init() and _spawnLiveAt(x):
        new Particle(Assets.next(), zCounter++) placed at x and appended. */
    method SpawnAt(x: real, viewAspect: real, d: Draws)
      requires Valid() && viewAspect > 0.0 && DrawsValid(d)
      modifies this, scenes, assets
      ensures Valid()
      ensures zCounter == old(zCounter) + 1
      ensures |particles| == old(|particles|) + 1 && particles[..old(|particles|)] == old(particles)
      ensures fresh(particles[old(|particles|)])
      ensures Bodies(particles) == old(Bodies(particles)) + [Initial(old(zCounter), viewAspect, SizeScale(innerWidth), d).(x := x)]
      ensures sysState == old(sysState) && spawnTimer == old(spawnTimer)
      ensures spawnInterval == old(spawnInterval) && firstWake == old(firstWake)
      ensures assets.textures == old(assets.textures)
      ensures particles[old(|particles|)].texture == Dealt(old(assets.textures), old(assets.cursor), 0)
      ensures assets.cursor == CursorAfter(old(assets.textures), old(assets.cursor), 1)
    {
      var p := NewParticle(x, viewAspect, d);
      Append(p);
    }

    /** new Particle(Assets.next(), zCounter) with p.x = x: the pooled
        particles are untouched and the scenes gain the new meshes. */
    method NewParticle(x: real, viewAspect: real, d: Draws) returns (p: Particle)
      requires Valid() && viewAspect > 0.0 && DrawsValid(d)
      modifies scenes, assets
      ensures fresh(p)
      ensures p.Snapshot() == Initial(zCounter, viewAspect, SizeScale(innerWidth), d).(x := x)
      ensures p.zOrder == zCounter && p.scenes == scenes
      ensures Bodies(particles) == old(Bodies(particles))
      ensures scenes.Contents() == old(scenes.Contents()).With(zCounter)
      ensures assets.textures == old(assets.textures)
      ensures p.texture == Dealt(old(assets.textures), old(assets.cursor), 0)
      ensures assets.cursor == CursorAfter(old(assets.textures), old(assets.cursor), 1)
    {
      var texture := assets.Next();
      p := new Particle(texture, zCounter, scenes, viewAspect, SizeScale(innerWidth), d);
      p.x := x;
    }

    /** zCounter++ and particles.push(p). */
    method Append(p: Particle)
      requires Ordered(particles) && Healthy(Bodies(particles))
      requires forall k :: 0 <= k < |particles| ==> particles[k].zOrder < zCounter && particles[k].scenes == scenes
      requires p.zOrder == zCounter && p.scenes == scenes && ParticleSpec.Valid(p.Snapshot()) && p.alive
      requires scenes.Contents() == Registered(particles).With(zCounter)
      modifies this
      ensures Valid()
      ensures zCounter == old(zCounter) + 1 && particles == old(particles) + [p]
      ensures Bodies(particles) == old(Bodies(particles)) + [p.Snapshot()]
      ensures sysState == old(sysState) && spawnTimer == old(spawnTimer)
      ensures spawnInterval == old(spawnInterval) && firstWake == old(firstWake)
    {
      PoolGrows(particles, zCounter, scenes, p);
      zCounter := zCounter + 1;
      particles := particles + [p];
    }

    /** wake(): RUNNING with a fresh spawn clock; the first wake shortens the
        interval to 0.35 of the current one, later ones draw a new interval;
        then every particle is woken. */
    method Wake(r: real)
      requires Valid() && Unit(r)
      modifies this, set p | p in particles
      ensures Valid()
      ensures particles == old(particles) && zCounter == old(zCounter)
      ensures sysState == SysRunning && spawnTimer == 0.0 && !firstWake
      ensures spawnInterval == if old(firstWake) then old(spawnInterval) * 0.35
                               else SpawnInterval(PeakCount(innerWidth), r)
      ensures Bodies(particles) == Wakes(old(Bodies(particles)))
    {
      StartRunning(r);
      WakeAll();
    }

    /** The clock part of wake(). */
    method StartRunning(r: real)
      requires Valid() && Unit(r)
      modifies this
      ensures Valid()
      ensures particles == old(particles) && zCounter == old(zCounter)
      ensures sysState == SysRunning && spawnTimer == 0.0 && !firstWake
      ensures spawnInterval == if old(firstWake) then old(spawnInterval) * 0.35
                               else SpawnInterval(PeakCount(innerWidth), r)
    {
      sysState := SysRunning;
      spawnTimer := 0.0;
      if firstWake {
        spawnInterval := spawnInterval * 0.35;
        firstWake := false;
      } else {
        UpdateSpawnInterval(r);
      }
    }

    /** The loop of wake(): particles[i].wake() for every i. */
    method WakeAll()
      requires Valid()
      modifies set p | p in particles
      ensures Valid()
      ensures Bodies(particles) == Wakes(old(Bodies(particles)))
    {
      ghost var B0 := Bodies(particles);
      WakesKeepHealthy(B0);
      var i := 0;
      while i < |particles|
        invariant 0 <= i <= |particles|
        invariant forall k :: 0 <= k < i ==> particles[k].Snapshot() == ParticleSpec.Wake(B0[k])
        invariant forall k :: i <= k < |particles| ==> particles[k].Snapshot() == B0[k]
      {
        particles[i].Wake();
        i := i + 1;
      }
      assert Bodies(particles) == Wakes(B0);
      assert scenes.Contents() == old(scenes.Contents());
    }

    /** poof(): POOFING, and every particle poofs with its own draws. */
    method Poof(ds: seq<PoofDraws>, m: Ops)
      requires Valid() && Lawful(m)
      requires |ds| == |particles| && forall k :: 0 <= k < |ds| ==> PoofDrawsValid(ds[k])
      modifies this, set p | p in particles
      ensures Valid()
      ensures sysState == SysPoofing
      ensures particles == old(particles) && zCounter == old(zCounter) && spawnTimer == old(spawnTimer)
      ensures spawnInterval == old(spawnInterval) && firstWake == old(firstWake)
      ensures Bodies(particles) == Poofs(old(Bodies(particles)), ds, m)
    {
      sysState := SysPoofing;
      PoofAll(ds, m);
    }

    /** The loop of poof(): particles[i].poof() for every i. */
    method PoofAll(ds: seq<PoofDraws>, m: Ops)
      requires Valid() && Lawful(m)
      requires |ds| == |particles| && forall k :: 0 <= k < |ds| ==> PoofDrawsValid(ds[k])
      modifies set p | p in particles
      ensures Valid()
      ensures Bodies(particles) == Poofs(old(Bodies(particles)), ds, m)
    {
      ghost var B0 := Bodies(particles);
      PoofsBurstAll(B0, ds, m);
      var i := 0;
      while i < |particles|
        invariant 0 <= i <= |particles|
        invariant forall k :: 0 <= k < i ==> particles[k].Snapshot() == ParticleSpec.Poof(B0[k], ds[k], m)
        invariant forall k :: i <= k < |particles| ==> particles[k].Snapshot() == B0[k]
      {
        particles[i].Poof(ds[i], m);
        i := i + 1;
      }
      assert Bodies(particles) == Poofs(B0, ds, m);
      assert scenes.Contents() == old(scenes.Contents());
    }

    /** update(dt), with the pointer module, the viewport aspect of this
        frame, and the draws a spawn would use. */
    method Update(dt: real, viewAspect: real, pointer: Pointer, m: Ops, r: real, d: Draws)
      requires Valid() && FrameDt(dt) && viewAspect > 0.0 && Lawful(m) && Unit(r) && DrawsValid(d)
      modifies this, scenes, assets, pointer, set p | p in particles
      ensures Valid()
      ensures pointer.State() == Tracked(old(pointer.State()), dt)
      ensures Record() == Tick(old(Record()), pointer.State().active, pointer.State().x, pointer.State().y,
                               pointer.State().vx, pointer.State().vy, dt, viewAspect, m,
                               PeakCount(innerWidth), SizeScale(innerWidth), r, d)
      ensures assets.textures == old(assets.textures)
      ensures zCounter == old(zCounter) + (if SpawnDue(old(sysState),
        |Settled(old(Bodies(particles)), pointer.State().active, pointer.State().x, pointer.State().y,
                 pointer.State().vx, pointer.State().vy, dt, viewAspect, m)|,
        PeakCount(innerWidth), old(spawnTimer), dt, old(spawnInterval)) then 1 else 0)
      ensures assets.cursor == CursorAfter(old(assets.textures), old(assets.cursor), zCounter - old(zCounter))
      ensures zCounter > old(zCounter) ==>
        |particles| > 0 && particles[|particles| - 1].texture == Dealt(old(assets.textures), old(assets.cursor), 0)
    {
      pointer.Update(dt);
      var cx, cy := pointer.GetPosition();
      var cvx, cvy := pointer.GetVelocity();
      var active := pointer.IsActive();
      Advance(active, cx, cy, cvx, cvy, dt, viewAspect, m, r, d);
    }

    /** Steps 1 to 4 of update(dt), once the pointer has been read. */
    method Advance(active: bool, cx: real, cy: real, cvx: real, cvy: real, dt: real, viewAspect: real,
                   m: Ops, r: real, d: Draws)
      requires Valid() && FrameDt(dt) && viewAspect > 0.0 && Lawful(m) && Unit(r) && DrawsValid(d)
      modifies this, scenes, assets, set p | p in particles
      ensures Valid()
      ensures Record() == Tick(old(Record()), active, cx, cy, cvx, cvy, dt, viewAspect, m,
                               PeakCount(innerWidth), SizeScale(innerWidth), r, d)
      ensures assets.textures == old(assets.textures)
      ensures zCounter == old(zCounter) + (if SpawnDue(old(sysState),
        |Settled(old(Bodies(particles)), active, cx, cy, cvx, cvy, dt, viewAspect, m)|,
        PeakCount(innerWidth), old(spawnTimer), dt, old(spawnInterval)) then 1 else 0)
      ensures assets.cursor == CursorAfter(old(assets.textures), old(assets.cursor), zCounter - old(zCounter))
      ensures zCounter > old(zCounter) ==>
        |particles| > 0 && particles[|particles| - 1].texture == Dealt(old(assets.textures), old(assets.cursor), 0)
    {
      Settle(active, cx, cy, cvx, cvy, dt, viewAspect, m);
      SpawnPhase(dt, viewAspect, r, d);
    }

    /** Steps 1 to 3 of update(dt): the impulse while the pointer is on
        screen, the propagation pass, and the step-and-cull loop. */
    method Settle(active: bool, cx: real, cy: real, cvx: real, cvy: real, dt: real, viewAspect: real, m: Ops)
      requires Valid() && FrameDt(dt) && viewAspect > 0.0 && Lawful(m)
      modifies this, scenes, set p | p in particles
      ensures Valid()
      ensures Record() == old(Record()).(bodies := Settled(old(Bodies(particles)), active, cx, cy, cvx, cvy, dt, viewAspect, m))
    {
      ghost var B0 := Bodies(particles);
      ImpulsesOnlyPush(B0, cx, cy, cvx, cvy, m);
      if active {
        PushAll(cx, cy, cvx, cvy, m);
        SameButVelocityHealthy(B0, Bodies(particles));
      }
      ghost var pushed := Bodies(particles);
      Propagate(m);
      PropagationOnlyVelocities(pushed, m);
      StepAll(dt, viewAspect, m);
    }

    /** Step 1: particles[i].applyImpulse(cursor, vel) for every i. */
    method PushAll(cx: real, cy: real, cvx: real, cvy: real, m: Ops)
      requires Ordered(particles)
      modifies set p | p in particles
      ensures Bodies(particles) == Impulses(old(Bodies(particles)), cx, cy, cvx, cvy, m)
    {
      ghost var B0 := Bodies(particles);
      var i := 0;
      while i < |particles|
        invariant 0 <= i <= |particles|
        invariant forall k :: 0 <= k < i ==> particles[k].Snapshot() == Impulse(B0[k], cx, cy, cvx, cvy, m)
        invariant forall k :: i <= k < |particles| ==> particles[k].Snapshot() == B0[k]
      {
        particles[i].ApplyImpulse(cx, cy, cvx, cvy, m);
        i := i + 1;
      }
      assert Bodies(particles) == Impulses(B0, cx, cy, cvx, cvy, m);
    }

    /** Step 2: the propagation pass. Source i's excess is read when the
        outer loop reaches it. */
    method Propagate(m: Ops)
      requires Ordered(particles)
      modifies set p | p in particles
      ensures Bodies(particles) == Propagation(old(Bodies(particles)), m)
    {
      ghost var B0 := Bodies(particles);
      var n := |particles|;
      var i := 0;
      while i < n
        invariant 0 <= i <= n
        invariant Bodies(particles) == Rounds(B0, i, m)
      {
        SourceRoundAt(i, m);
        i := i + 1;
      }
    }

    /** One turn of the outer loop: a live source whose excess is at least
        0.0005 long spreads it. */
    method SourceRoundAt(i: nat, m: Ops)
      requires Ordered(particles) && i < |particles|
      modifies set p | p in particles
      ensures Bodies(particles) == SourceRound(old(Bodies(particles)), i, m)
    {
      ghost var bs := Bodies(particles);
      var a := particles[i];
      assert a.Snapshot() == bs[i];
      var aliveA := a.IsAlive();
      if aliveA {
        var ex, ey := a.GetExcess();
        var excessMag := Hypot(ex, ey, m);
        if excessMag >= 0.0005 {
          Spread(i, ex, ey, m);
        }
      }
    }

    /** The inner loop of the pass: source i hands (ex, ey), scaled by the
        proximity transfer, to every other live particle within range. */
    method Spread(i: nat, ex: real, ey: real, m: Ops)
      requires Ordered(particles) && i < |particles|
      modifies set p | p in particles
      ensures Bodies(particles) == Transfers(old(Bodies(particles)), i, ex, ey, |particles|, m)
    {
      ghost var B := Bodies(particles);
      var n := |particles|;
      var j := 0;
      while j < n
        invariant 0 <= j <= n
        invariant Bodies(particles) == Transfers(B, i, ex, ey, j, m)
      {
        TransferTo(i, j, ex, ey, m);
        j := j + 1;
      }
    }

    /** One turn of the inner loop: target j takes its share of (ex, ey)
        when it is another live particle within PROP_RADIUS of source i. */
    method TransferTo(i: nat, j: nat, ex: real, ey: real, m: Ops)
      requires Ordered(particles) && i < |particles| && j < |particles|
      modifies particles[j]
      ensures Bodies(particles) == Transfer(old(Bodies(particles)), i, j, ex, ey, m)
    {
      ghost var prev := Bodies(particles);
      if i == j {
        return;
      }
      var a := particles[i];
      var b := particles[j];
      ghost var sa, sb := a.Snapshot(), b.Snapshot();
      assert prev[i] == sa && prev[j] == sb;
      var aliveB := b.IsAlive();
      assert Bodies(particles) == prev;
      if !aliveB {
        return;
      }
      // dx = (b.x - a.x) * (a.aspect || 1), dy = b.y - a.y, dist = |(dx, dy)|
      var dist := Separation(a.Snapshot(), b.Snapshot(), m);
      if dist >= PROP_RADIUS || dist < 0.001 {
        return;
      }
      // t = 1 - dist / PROP_RADIUS, weight = t^3, transfer = weight * PROP_STRENGTH * PROP_DECAY
      var transfer := PropTransfer(dist);
      var pushX, pushY := ex * transfer, ey * transfer;
      assert pushX == ex * PropTransfer(Separation(prev[i], prev[j], m));
      assert pushY == ey * PropTransfer(Separation(prev[i], prev[j], m));
      TransferIs(prev, i, j, ex, ey, m);
      ReceiveAt(j, pushX, pushY);
    }

    /** particles[j].receiveWake(ex, ey): the records change at j only. */
    method ReceiveAt(j: nat, ex: real, ey: real)
      requires Ordered(particles) && j < |particles|
      modifies particles[j]
      ensures Bodies(particles) == old(Bodies(particles))[j := Receive(old(Bodies(particles))[j], ex, ey)]
    {
      particles[j].ReceiveWake(ex, ey);
      assert forall k :: 0 <= k < |particles| && k != j ==> particles[k].Snapshot() == old(particles[k].Snapshot());
    }

    /** Step 3: from the last particle to the first, each particle steps and
        is spliced out if the step destroyed it. */
    method StepAll(dt: real, viewAspect: real, m: Ops)
      requires Valid() && FrameDt(dt) && viewAspect > 0.0 && Lawful(m)
      modifies this, scenes, set p | p in particles
      ensures Valid()
      ensures Bodies(particles) == Culled(old(Bodies(particles)), dt, viewAspect, m)
      ensures forall p :: p in particles ==> p in old(particles)
      ensures zCounter == old(zCounter) && sysState == old(sysState) && spawnTimer == old(spawnTimer)
      ensures spawnInterval == old(spawnInterval) && firstWake == old(firstWake)
    {
      ghost var B0 := Bodies(particles);
      var i := |particles|;
      assert B0[i..] == [] && B0[..i] == B0;
      while i > 0
        invariant 0 <= i <= |particles| && i <= |B0|
        invariant forall p :: p in particles ==> p in old(particles)
        invariant Linked(particles, zCounter, scenes)
        invariant Bodies(particles) == B0[..i] + Culled(B0[i..], dt, viewAspect, m)
        invariant zCounter == old(zCounter) && sysState == old(sysState) && spawnTimer == old(spawnTimer)
        invariant spawnInterval == old(spawnInterval) && firstWake == old(firstWake)
      {
        i := i - 1;
        StepOne(i, dt, viewAspect, m, B0);
      }
      assert B0[..0] == [] && B0[0..] == B0;
      CulledHealthy(B0, dt, viewAspect, m);
    }

    /** One turn of the step-and-cull loop, at index i. */
    method StepOne(i: nat, dt: real, viewAspect: real, m: Ops, ghost B0: seq<Body>)
      requires FrameDt(dt) && viewAspect > 0.0 && Lawful(m) && Healthy(B0)
      requires i < |particles| && i < |B0|
      requires Linked(particles, zCounter, scenes)
      requires Bodies(particles) == B0[..i + 1] + Culled(B0[i + 1..], dt, viewAspect, m)
      modifies this, scenes, particles[i]
      ensures i <= |particles| && forall p :: p in particles ==> p in old(particles)
      ensures Linked(particles, zCounter, scenes)
      ensures Bodies(particles) == B0[..i] + Culled(B0[i..], dt, viewAspect, m)
      ensures zCounter == old(zCounter) && sysState == old(sysState) && spawnTimer == old(spawnTimer)
      ensures spawnInterval == old(spawnInterval) && firstWake == old(firstWake)
    {
      ghost var bs := Bodies(particles);
      StepAtCull(B0, bs, i, dt, viewAspect, m);
      assert particles[i].Snapshot() == bs[i] == B0[i];
      StepParticle(i, dt, viewAspect, m);
      ghost var stepped := bs[i := Step(B0[i], dt, viewAspect, m)];
      assert Bodies(particles) == stepped;
      var stillAlive := particles[i].IsAlive();
      assert stillAlive == stepped[i].alive == Step(B0[i], dt, viewAspect, m).alive;
      if !stillAlive {
        Splice(i);
        assert Bodies(particles) == stepped[..i] + stepped[i + 1..];
      }
    }

    /** particles[i].update(dt). */
    method StepParticle(i: nat, dt: real, viewAspect: real, m: Ops)
      requires FrameDt(dt) && viewAspect > 0.0 && Lawful(m)
      requires i < |particles| && Linked(particles, zCounter, scenes)
      requires particles[i].Valid() && particles[i].alive
      modifies scenes, particles[i]
      ensures Bodies(particles) == old(Bodies(particles))[i := Step(old(particles[i].Snapshot()), dt, viewAspect, m)]
      ensures particles[i].alive ==> Linked(particles, zCounter, scenes)
      ensures !particles[i].alive ==> scenes.Contents() == old(scenes.Contents()).Without(particles[i].zOrder)
    {
      particles[i].Update(dt, viewAspect, m);
      assert forall k :: 0 <= k < |particles| && k != i ==> particles[k].Snapshot() == old(particles[k].Snapshot());
    }

    /** particles.splice(i, 1), once the scenes have dropped particle i's meshes. */
    method Splice(i: nat)
      requires i < |particles| && Ordered(particles)
      requires forall k :: 0 <= k < |particles| ==> particles[k].zOrder < zCounter && particles[k].scenes == scenes
      requires scenes.Contents() == Registered(particles).Without(particles[i].zOrder)
      modifies this
      ensures particles == old(particles[..i] + particles[i + 1..])
      ensures Bodies(particles) == old(Bodies(particles)[..i] + Bodies(particles)[i + 1..])
      ensures Linked(particles, zCounter, scenes)
      ensures zCounter == old(zCounter) && sysState == old(sysState) && spawnTimer == old(spawnTimer)
      ensures spawnInterval == old(spawnInterval) && firstWake == old(firstWake)
    {
      ZOrdersRemove(particles, i);
      BodiesRemove(particles, i);
      particles := particles[..i] + particles[i + 1..];
    }

    /** Step 4: while RUNNING and below the peak, the spawn clock runs; when
        it reaches the interval, one particle is spawned at the spawn line and
        a new interval is drawn. */
    method SpawnPhase(dt: real, viewAspect: real, r: real, d: Draws)
      requires Valid() && viewAspect > 0.0 && Unit(r) && DrawsValid(d)
      modifies this, scenes, assets
      ensures Valid()
      ensures Record() == SpawnStep(old(Record()), dt, PeakCount(innerWidth), viewAspect, SizeScale(innerWidth), r, d)
      ensures particles[..old(|particles|)] == old(particles)
      ensures assets.textures == old(assets.textures)
      ensures |particles| == old(|particles|) + (if SpawnDue(old(sysState), old(|particles|), PeakCount(innerWidth), old(spawnTimer), dt, old(spawnInterval)) then 1 else 0)
      ensures assets.cursor == CursorAfter(old(assets.textures), old(assets.cursor),
        if SpawnDue(old(sysState), old(|particles|), PeakCount(innerWidth), old(spawnTimer), dt, old(spawnInterval)) then 1 else 0)
      ensures SpawnDue(old(sysState), old(|particles|), PeakCount(innerWidth), old(spawnTimer), dt, old(spawnInterval)) ==>
        particles[old(|particles|)].texture == Dealt(old(assets.textures), old(assets.cursor), 0)
    {
      if sysState == SysRunning && |particles| < PeakCount(innerWidth) {
        spawnTimer := spawnTimer + dt;
        if spawnTimer >= spawnInterval {
          SpawnNow(viewAspect, r, d);
        }
      }
    }

    /** The spawn itself: the timer restarts, a particle is spawned at the
        spawn line, and a new interval is drawn. */
    method SpawnNow(viewAspect: real, r: real, d: Draws)
      requires Valid() && viewAspect > 0.0 && Unit(r) && DrawsValid(d)
      modifies this, scenes, assets
      ensures Valid()
      ensures Record() == old(Record()).(bodies := old(Bodies(particles)) + [Spawned(old(zCounter), SPAWN_X_OFFSET, viewAspect, SizeScale(innerWidth), d)],
                                         zCounter := old(zCounter) + 1, spawnTimer := 0.0,
                                         spawnInterval := SpawnInterval(PeakCount(innerWidth), r))
      ensures |particles| == old(|particles|) + 1 && particles[..old(|particles|)] == old(particles)
      ensures assets.textures == old(assets.textures)
      ensures particles[old(|particles|)].texture == Dealt(old(assets.textures), old(assets.cursor), 0)
      ensures assets.cursor == CursorAfter(old(assets.textures), old(assets.cursor), 1)
    {
      spawnTimer := 0.0;
      SpawnLiveAt(SPAWN_X_OFFSET, viewAspect, d);
      UpdateSpawnInterval(r);
    }

    /** _spawnLiveAt(x): a new particle at x, woken, appended to the pool. */
    method SpawnLiveAt(x: real, viewAspect: real, d: Draws)
      requires Valid() && viewAspect > 0.0 && DrawsValid(d)
      modifies this, scenes, assets
      ensures Valid()
      ensures zCounter == old(zCounter) + 1
      ensures |particles| == old(|particles|) + 1 && particles[..old(|particles|)] == old(particles)
      ensures Bodies(particles) == old(Bodies(particles)) + [Spawned(old(zCounter), x, viewAspect, SizeScale(innerWidth), d)]
      ensures sysState == old(sysState) && spawnTimer == old(spawnTimer)
      ensures spawnInterval == old(spawnInterval) && firstWake == old(firstWake)
      ensures assets.textures == old(assets.textures)
      ensures particles[old(|particles|)].texture == Dealt(old(assets.textures), old(assets.cursor), 0)
      ensures assets.cursor == CursorAfter(old(assets.textures), old(assets.cursor), 1)
    {
      ghost var B0 := Bodies(particles);
      var n := |particles|;
      SpawnAt(x, viewAspect, d);
      var p := particles[n];
      SpawnedSleeps(old(zCounter), x, viewAspect, SizeScale(innerWidth), d);
      p.Wake();
      assert Bodies(particles) == B0 + [Spawned(old(zCounter), x, viewAspect, SizeScale(innerWidth), d)];
    }

    /** _updateSpawnInterval(), with r the draw of rand(0.7, 1.4). */
    method UpdateSpawnInterval(r: real)
      requires Valid() && Unit(r)
      modifies this
      ensures Valid()
      ensures spawnInterval == SpawnInterval(PeakCount(innerWidth), r)
      ensures particles == old(particles) && zCounter == old(zCounter) && sysState == old(sysState)
      ensures spawnTimer == old(spawnTimer) && firstWake == old(firstWake)
    {
      var avgVelocity := (VELOCITY_MIN + VELOCITY_MAX) / 2.0;
      var avgLifetime := 1.15 / avgVelocity;
      spawnInterval := (avgLifetime / PeakCount(innerWidth) as real) * Rand(0.7, 1.4, r);
    }
  }
}
