/** The particle pool of js/system.js as values: the pool is the sequence of
    its particles' records, in creation order, and each pass of update(dt) is a
    function from the sequence before the pass to the sequence after it. */
module SystemSpec {
  import opened Numeric
  import opened Config
  import opened Easing
  import opened ParticleSpec

  /** SYS.DORMANT, SYS.RUNNING, SYS.POOFING. */
  datatype SysState = SysDormant | SysRunning | SysPoofing

  /** Every pooled particle keeps the particle invariant and is alive. */
  ghost predicate Healthy(bs: seq<Body>) {
    forall k :: 0 <= k < |bs| ==> Valid(bs[k]) && bs[k].alive
  }

  /** Only the velocity of each particle may differ between the two pools. */
  predicate SameButVelocity(bs: seq<Body>, rs: seq<Body>) {
    && |rs| == |bs|
    && forall k :: 0 <= k < |bs| ==> rs[k].(vx := bs[k].vx, vy := bs[k].vy) == bs[k]
  }

  /* ── init ───────────────────────────────────── */

  /** The number of particles init() seeds. */
  const SEED_COUNT: nat := 3

  /** The x at which init() places seed i: evenly spread from SPAWN_X_OFFSET to 0.82. */
  function SeedX(i: nat): real
    requires i < SEED_COUNT
  {
    SPAWN_X_OFFSET + (i as real / (SEED_COUNT - 1) as real) * (0.82 - SPAWN_X_OFFSET)
  }

  /** The records init() appends: seed i is a freshly constructed particle
      with z-order zOrder + i, moved to SeedX(i). */
  function Seeds(zOrder: nat, aspect: real, sizeScale: real, ds: seq<Draws>): seq<Body>
    requires aspect > 0.0 && sizeScale > 0.0
    requires |ds| == SEED_COUNT && forall k :: 0 <= k < |ds| ==> DrawsValid(ds[k])
  {
    seq(SEED_COUNT, i requires 0 <= i < SEED_COUNT => Initial(zOrder + i, aspect, sizeScale, ds[i]).(x := SeedX(i)))
  }

  /** The seeds sit at 0.33, 0.575 and 0.82 with consecutive z-orders, each
      asleep, alive and valid. */
  lemma SeedsSpread(zOrder: nat, aspect: real, sizeScale: real, ds: seq<Draws>)
    requires aspect > 0.0 && sizeScale > 0.0
    requires |ds| == SEED_COUNT && forall k :: 0 <= k < |ds| ==> DrawsValid(ds[k])
    ensures SeedX(0) == 0.33 && SeedX(1) == 0.575 && SeedX(2) == 0.82
    ensures var ss := Seeds(zOrder, aspect, sizeScale, ds);
      && |ss| == 3 && Healthy(ss)
      && forall i :: 0 <= i < SEED_COUNT ==>
           ss[i].state == Sleeping && ss[i].zOrder == zOrder + i && ss[i].x == SeedX(i)
           && ss[i].size == 0.0 && ss[i].opacity == 0.0
  {
  }

  /** Seed i follows seeds 0 .. i - 1. */
  lemma SeedsPrefix(zOrder: nat, aspect: real, sizeScale: real, ds: seq<Draws>, i: nat)
    requires aspect > 0.0 && sizeScale > 0.0
    requires |ds| == SEED_COUNT && forall k :: 0 <= k < |ds| ==> DrawsValid(ds[k])
    requires i < SEED_COUNT
    ensures Seeds(zOrder, aspect, sizeScale, ds)[..i + 1]
      == Seeds(zOrder, aspect, sizeScale, ds)[..i] + [Initial(zOrder + i, aspect, sizeScale, ds[i]).(x := SeedX(i))]
  {
    var ss := Seeds(zOrder, aspect, sizeScale, ds);
    assert ss[i] == Initial(zOrder + i, aspect, sizeScale, ds[i]).(x := SeedX(i));
    assert ss[..i + 1] == ss[..i] + [ss[i]];
  }

  /* ── spawn interval ─────────────────────────── */

  /** Half-way between the slowest and the fastest natural velocity. */
  const AVG_VELOCITY: real := (VELOCITY_MIN + VELOCITY_MAX) / 2.0

  /** The time a particle at the average velocity takes to cross the screen. */
  const AVG_LIFETIME: real := 1.15 / AVG_VELOCITY

  /** The average lifetime shared among the peak population. */
  function BaseInterval(peak: nat): real
    requires peak > 0
  {
    AVG_LIFETIME / peak as real
  }

  /** _updateSpawnInterval: (avgLifetime / PEAK_COUNT) * rand(0.7, 1.4). */
  function SpawnInterval(peak: nat, r: real): real
    requires peak > 0 && Unit(r)
  {
    BaseInterval(peak) * Rand(0.7, 1.4, r)
  }

  /** The jitter keeps the interval within [0.7, 1.4) times the average
      lifetime shared among the peak population; in particular it is positive. */
  lemma SpawnIntervalRange(peak: nat, r: real)
    requires peak > 0 && Unit(r)
    ensures 0.0 < BaseInterval(peak)
    ensures 0.7 * BaseInterval(peak) <= SpawnInterval(peak, r) < 1.4 * BaseInterval(peak)
    ensures 0.0 < SpawnInterval(peak, r)
  {
    Ratio(AVG_LIFETIME, peak as real);
    Jitter(BaseInterval(peak), Rand(0.7, 1.4, r));
  }

  /** A positive base scaled by a jitter in [0.7, 1.4). */
  lemma Jitter(base: real, j: real)
    requires 0.0 < base && 0.7 <= j < 1.4
    ensures 0.7 * base <= base * j < 1.4 * base
  {
    MulMonotone(0.7, j, base);
    MulStrict(j, 1.4, base);
  }

  /* ── wake / poof ────────────────────────────── */

  /** particles.forEach(p => p.wake()). */
  function Wakes(bs: seq<Body>): seq<Body> {
    seq(|bs|, k requires 0 <= k < |bs| => Wake(bs[k]))
  }

  /** Waking the pool keeps every particle valid and alive and changes at most
      the countdown of a sleeping one. */
  lemma WakesKeepHealthy(bs: seq<Body>)
    requires Healthy(bs)
    ensures Healthy(Wakes(bs)) && |Wakes(bs)| == |bs|
    ensures forall k :: 0 <= k < |bs| ==> Wakes(bs)[k].(wakeTimer := bs[k].wakeTimer) == bs[k]
  {
    forall k | 0 <= k < |bs|
      ensures Valid(Wakes(bs)[k]) && Wakes(bs)[k].alive
      ensures Wakes(bs)[k].(wakeTimer := bs[k].wakeTimer) == bs[k]
    {
      WakeOnlyRestartsCountdown(bs[k]);
    }
  }

  /** particles.forEach(p => p.poof()), each particle with its own draws. */
  function Poofs(bs: seq<Body>, ds: seq<PoofDraws>, m: Ops): seq<Body>
    requires |ds| == |bs| && forall k :: 0 <= k < |ds| ==> PoofDrawsValid(ds[k])
  {
    seq(|bs|, k requires 0 <= k < |bs| => Poof(bs[k], ds[k], m))
  }

  /** After the pool is poofed every particle is POOFING, valid and still alive. */
  lemma PoofsBurstAll(bs: seq<Body>, ds: seq<PoofDraws>, m: Ops)
    requires Healthy(bs) && Lawful(m)
    requires |ds| == |bs| && forall k :: 0 <= k < |ds| ==> PoofDrawsValid(ds[k])
    ensures Healthy(Poofs(bs, ds, m)) && |Poofs(bs, ds, m)| == |bs|
    ensures forall k :: 0 <= k < |bs| ==> Poofs(bs, ds, m)[k].state == Poofing
  {
    forall k | 0 <= k < |bs|
      ensures Valid(Poofs(bs, ds, m)[k]) && Poofs(bs, ds, m)[k].alive
      ensures Poofs(bs, ds, m)[k].state == Poofing
    {
      PoofStarts(bs[k], ds[k], m);
    }
  }

  /* ── update, phase 1: the cursor impulse ────── */

  /** particles[i].applyImpulse(cursor, vel) for every i. */
  function Impulses(bs: seq<Body>, cx: real, cy: real, cvx: real, cvy: real, m: Ops): seq<Body> {
    seq(|bs|, k requires 0 <= k < |bs| => Impulse(bs[k], cx, cy, cvx, cvy, m))
  }

  /** The cursor pass changes velocities only. */
  lemma ImpulsesOnlyPush(bs: seq<Body>, cx: real, cy: real, cvx: real, cvy: real, m: Ops)
    requires Lawful(m)
    ensures SameButVelocity(bs, Impulses(bs, cx, cy, cvx, cvy, m))
  {
    var rs := Impulses(bs, cx, cy, cvx, cvy, m);
    forall k | 0 <= k < |bs|
      ensures rs[k].(vx := bs[k].vx, vy := bs[k].vy) == bs[k]
    {
      var b := bs[k];
      ImpulseDispatch(b, cx, cy, cvx, cvy, m);
      if b.state == Live {
        var dx := OffsetX(b, cx);
        var dy := OffsetY(b, cy);
        ImpulseAtEffect(b, dx, dy, Hypot(dx, dy, m), Hypot(cvx, cvy, m));
      }
    }
  }

  /* ── update, phase 2: wake propagation ──────── */

  /** `a.aspect || 1`: a zero aspect counts as 1. */
  function AspectOr1(aspect: real): real {
    if aspect != 0.0 then aspect else 1.0
  }

  /** The aspect-corrected distance from source a to target b. */
  function Separation(a: Body, b: Body, m: Ops): real {
    Hypot((b.x - a.x) * AspectOr1(a.aspect), b.y - a.y, m)
  }

  /** The fraction of the source's excess handed to a target at distance
      `dist`: the cubic proximity weight times PROP_STRENGTH * PROP_DECAY. */
  function PropTransfer(dist: real): real {
    var t := 1.0 - dist / PROP_RADIUS;
    var weight := t * t * t;
    weight * PROP_STRENGTH * PROP_DECAY
  }

  /** Inside the propagation radius the fraction handed over is positive and
      strictly less than PROP_STRENGTH * PROP_DECAY. */
  lemma PropTransferRange(dist: real)
    requires 0.001 <= dist < PROP_RADIUS
    ensures 0.0 < PropTransfer(dist) < PROP_STRENGTH * PROP_DECAY
  {
    var t := 1.0 - dist / PROP_RADIUS;
    Ratio(dist, PROP_RADIUS);
    assert 0.0 < dist / PROP_RADIUS;
    assert 0.0 < t < 1.0;
    CubeStrict(0.0, t);
    CubeStrict(t, 1.0);
    assert 0.0 < t * t * t < 1.0;
    MulStrict(0.0, t * t * t, PROP_STRENGTH * PROP_DECAY);
    MulStrict(t * t * t, 1.0, PROP_STRENGTH * PROP_DECAY);
    assert PropTransfer(dist) == t * t * t * (PROP_STRENGTH * PROP_DECAY);
  }

  /** The closer target takes the larger share. */
  lemma PropTransferCloser(d1: real, d2: real)
    requires 0.0 <= d1 < d2 <= PROP_RADIUS
    ensures PropTransfer(d2) < PropTransfer(d1)
  {
    DivStrict(d1, d2, PROP_RADIUS);
    Ratio(d2, PROP_RADIUS);
    var t1 := 1.0 - d1 / PROP_RADIUS;
    var t2 := 1.0 - d2 / PROP_RADIUS;
    CubeStrict(t2, t1);
    MulStrict(t2 * t2 * t2, t1 * t1 * t1, PROP_STRENGTH * PROP_DECAY);
    assert PropTransfer(d1) == t1 * t1 * t1 * (PROP_STRENGTH * PROP_DECAY);
    assert PropTransfer(d2) == t2 * t2 * t2 * (PROP_STRENGTH * PROP_DECAY);
  }

  /** Source i hands (ex, ey) scaled by the proximity transfer to target j,
      unless j is the source itself, is dead, or lies outside
      [0.001, PROP_RADIUS) of the source. */
  function Transfer(bs: seq<Body>, i: nat, j: nat, ex: real, ey: real, m: Ops): seq<Body>
    requires i < |bs| && j < |bs|
  {
    if i == j || !bs[j].alive then bs
    else
      var dist := Separation(bs[i], bs[j], m);
      if dist >= PROP_RADIUS || dist < 0.001 then bs
      else bs[j := Receive(bs[j], ex * PropTransfer(dist), ey * PropTransfer(dist))]
  }

  /** The inner loop of the pass for source i, over targets 0 .. j - 1. */
  function Transfers(bs: seq<Body>, i: nat, ex: real, ey: real, j: nat, m: Ops): (rs: seq<Body>)
    requires i < |bs| && j <= |bs|
    ensures |rs| == |bs|
    decreases j
  {
    if j == 0 then bs
    else
      var prev := Transfers(bs, i, ex, ey, j - 1, m);
      Transfer(prev, i, j - 1, ex, ey, m)
  }

  /** The round of source i: a dead source, or one whose excess is below
      0.0005 in length, hands nothing over; otherwise its CURRENT excess (which
      earlier rounds of the same pass may have raised) goes to every target. */
  function SourceRound(bs: seq<Body>, i: nat, m: Ops): (rs: seq<Body>)
    requires i < |bs|
    ensures |rs| == |bs|
  {
    if !bs[i].alive then bs
    else
      var e := Excess(bs[i]);
      if Hypot(e.0, e.1, m) < 0.0005 then bs
      else Transfers(bs, i, e.0, e.1, |bs|, m)
  }

  /** The outer loop of the pass, over sources 0 .. i - 1. */
  function Rounds(bs: seq<Body>, i: nat, m: Ops): (rs: seq<Body>)
    requires i <= |bs|
    ensures |rs| == |bs|
  {
    if i == 0 then bs else SourceRound(Rounds(bs, i - 1, m), i - 1, m)
  }

  /** One propagation pass over the whole pool. */
  function Propagation(bs: seq<Body>, m: Ops): seq<Body> {
    Rounds(bs, |bs|, m)
  }

  /** A single transfer touches only target j, and only its velocity. */
  lemma TransferOnlyTarget(bs: seq<Body>, i: nat, j: nat, ex: real, ey: real, m: Ops)
    requires i < |bs| && j < |bs| && Healthy(bs)
    ensures var rs := Transfer(bs, i, j, ex, ey, m);
      && SameButVelocity(bs, rs) && Healthy(rs)
      && (forall k :: 0 <= k < |bs| && k != j ==> rs[k] == bs[k])
  {
    var rs := Transfer(bs, i, j, ex, ey, m);
    if rs != bs {
      var dist := Separation(bs[i], bs[j], m);
      ReceiveEffect(bs[j], ex * PropTransfer(dist), ey * PropTransfer(dist));
    }
  }

  /** The inner loop changes velocities only, never the source's, and keeps the pool healthy. */
  lemma {:induction false} TransfersOnlyVelocities(bs: seq<Body>, i: nat, ex: real, ey: real, j: nat, m: Ops)
    requires i < |bs| && j <= |bs| && Healthy(bs)
    ensures var rs := Transfers(bs, i, ex, ey, j, m);
      SameButVelocity(bs, rs) && Healthy(rs) && rs[i] == bs[i]
    decreases j
  {
    if j > 0 {
      TransfersOnlyVelocities(bs, i, ex, ey, j - 1, m);
      var prev := Transfers(bs, i, ex, ey, j - 1, m);
      TransferOnlyTarget(prev, i, j - 1, ex, ey, m);
    }
  }

  /** The rounds of the pass change velocities only and keep the pool healthy. */
  lemma {:induction false} RoundsOnlyVelocities(bs: seq<Body>, i: nat, m: Ops)
    requires i <= |bs| && Healthy(bs)
    ensures SameButVelocity(bs, Rounds(bs, i, m)) && Healthy(Rounds(bs, i, m))
  {
    if i > 0 {
      RoundsOnlyVelocities(bs, i - 1, m);
      var prev := Rounds(bs, i - 1, m);
      SourceRoundOnlyVelocities(prev, i - 1, m);
      SameButVelocityTrans(bs, prev, SourceRound(prev, i - 1, m));
    }
  }

  /** One round changes velocities only and keeps the pool healthy. */
  lemma SourceRoundOnlyVelocities(bs: seq<Body>, i: nat, m: Ops)
    requires i < |bs| && Healthy(bs)
    ensures SameButVelocity(bs, SourceRound(bs, i, m)) && Healthy(SourceRound(bs, i, m))
  {
    var rs := SourceRound(bs, i, m);
    if rs != bs {
      var e := Excess(bs[i]);
      TransfersOnlyVelocities(bs, i, e.0, e.1, |bs|, m);
    }
  }

  lemma SameButVelocityTrans(as_: seq<Body>, bs: seq<Body>, cs: seq<Body>)
    requires SameButVelocity(as_, bs) && SameButVelocity(bs, cs)
    ensures SameButVelocity(as_, cs)
  {
    forall k | 0 <= k < |as_|
      ensures cs[k].(vx := as_[k].vx, vy := as_[k].vy) == as_[k]
    {
      assert cs[k].(vx := bs[k].vx, vy := bs[k].vy) == bs[k];
    }
  }

  /** The propagation pass never adds, removes, reorders, kills or moves a
      particle: it changes velocities only, and the pool stays healthy. */
  lemma PropagationOnlyVelocities(bs: seq<Body>, m: Ops)
    requires Healthy(bs)
    ensures SameButVelocity(bs, Propagation(bs, m)) && Healthy(Propagation(bs, m))
  {
    RoundsOnlyVelocities(bs, |bs|, m);
  }

  /** Only LIVE targets take anything: a target that is not LIVE keeps its
      record through a whole round. */
  lemma {:induction false} TransfersSkipNotLive(bs: seq<Body>, i: nat, ex: real, ey: real, j: nat, m: Ops, k: nat)
    requires i < |bs| && j <= |bs| && k < |bs| && bs[k].state != Live
    ensures Transfers(bs, i, ex, ey, j, m)[k] == bs[k]
    decreases j
  {
    if j > 0 {
      TransfersSkipNotLive(bs, i, ex, ey, j - 1, m, k);
    }
  }

  /** Target j takes a share of source i's excess: it is another live,
      LIVE particle within [0.001, PROP_RADIUS) of the source. */
  predicate Takes(bs: seq<Body>, i: nat, j: nat, m: Ops)
    requires i < |bs| && j < |bs|
  {
    i != j && bs[j].alive && bs[j].state == Live && 0.001 <= Separation(bs[i], bs[j], m) < PROP_RADIUS
  }

  /** A transfer that goes ahead hands target j the source's excess scaled
      by the proximity fraction at their separation. */
  lemma TransferIs(bs: seq<Body>, i: nat, j: nat, ex: real, ey: real, m: Ops)
    requires i < |bs| && j < |bs| && i != j && bs[j].alive
    requires 0.001 <= Separation(bs[i], bs[j], m) < PROP_RADIUS
    ensures Transfer(bs, i, j, ex, ey, m) ==
      bs[j := Receive(bs[j], ex * PropTransfer(Separation(bs[i], bs[j], m)), ey * PropTransfer(Separation(bs[i], bs[j], m)))]
  {
    var rs := Transfer(bs, i, j, ex, ey, m);
    var expected := bs[j := Receive(bs[j], ex * PropTransfer(Separation(bs[i], bs[j], m)), ey * PropTransfer(Separation(bs[i], bs[j], m)))];
    assert |rs| == |expected|;
    assert forall k :: 0 <= k < |rs| ==> rs[k] == expected[k];
  }

  /** The pairwise rule of a round: the target j takes exactly
      ex * PropTransfer(dist) and ey * PropTransfer(dist) when it takes a
      share at distance dist, and nothing otherwise. */
  lemma RoundTarget(bs: seq<Body>, i: nat, ex: real, ey: real, j: nat, m: Ops)
    requires i < |bs| && j < |bs|
    ensures Takes(bs, i, j, m) ==>
      (Transfers(bs, i, ex, ey, |bs|, m)[j]
         == bs[j].(vx := bs[j].vx + ex * PropTransfer(Separation(bs[i], bs[j], m)),
                   vy := bs[j].vy + ey * PropTransfer(Separation(bs[i], bs[j], m))))
    ensures !Takes(bs, i, j, m) ==> Transfers(bs, i, ex, ey, |bs|, m)[j] == bs[j]
  {
    TransfersPrefix(bs, i, ex, ey, |bs|, m, j);
    var t := Transfer(bs, i, j, ex, ey, m);
    if Takes(bs, i, j, m) {
      TransferIs(bs, i, j, ex, ey, m);
      assert t[j] == Receive(bs[j], ex * PropTransfer(Separation(bs[i], bs[j], m)), ey * PropTransfer(Separation(bs[i], bs[j], m)));
    } else if i != j && bs[j].alive && 0.001 <= Separation(bs[i], bs[j], m) < PROP_RADIUS {
      TransferIs(bs, i, j, ex, ey, m);
      assert t[j] == Receive(bs[j], ex * PropTransfer(Separation(bs[i], bs[j], m)), ey * PropTransfer(Separation(bs[i], bs[j], m)));
    }
  }

  /** The inner loop up to target n reaches target j only in step j, where the
      source and target j are still as they were at the start of the round. */
  lemma {:induction false} TransfersPrefix(bs: seq<Body>, i: nat, ex: real, ey: real, n: nat, m: Ops, j: nat)
    requires i < |bs| && j < |bs| && n <= |bs|
    ensures var rs := Transfers(bs, i, ex, ey, n, m);
      && rs[i] == bs[i]
      && (n <= j ==> rs[j] == bs[j])
      && (j < n ==> rs[j] == Transfer(bs, i, j, ex, ey, m)[j])
    decreases n
  {
    if n > 0 {
      TransfersPrefix(bs, i, ex, ey, n - 1, m, j);
      TransfersPrefix(bs, i, ex, ey, n - 1, m, n - 1);
    }
  }

  /** No transfer comes from a dead source or from one whose excess is below
      0.0005 in length. */
  lemma QuietSourceGivesNothing(bs: seq<Body>, i: nat, m: Ops)
    requires i < |bs|
    requires !bs[i].alive || Hypot(Excess(bs[i]).0, Excess(bs[i]).1, m) < 0.0005
    ensures SourceRound(bs, i, m) == bs
  {
  }

  /* ── update, phase 3: step and cull ─────────── */

  /** The reverse loop of update: every particle steps, and those the step
      destroys leave the pool; the others keep their relative order. */
  function Culled(bs: seq<Body>, dt: real, aspect: real, m: Ops): seq<Body>
    requires aspect > 0.0 && forall k :: 0 <= k < |bs| ==> Valid(bs[k])
  {
    if bs == [] then []
    else
      var s := Step(bs[0], dt, aspect, m);
      (if s.alive then [s] else []) + Culled(bs[1..], dt, aspect, m)
  }

  /** After the cull every remaining particle is alive and valid, and the
      pool has not grown. */
  lemma {:induction false} CulledHealthy(bs: seq<Body>, dt: real, aspect: real, m: Ops)
    requires Healthy(bs) && FrameDt(dt) && aspect > 0.0 && Lawful(m)
    ensures Healthy(Culled(bs, dt, aspect, m)) && |Culled(bs, dt, aspect, m)| <= |bs|
  {
    if bs != [] {
      var s := Step(bs[0], dt, aspect, m);
      StepPreservesValid(bs[0], dt, aspect, m);
      CulledHealthy(bs[1..], dt, aspect, m);
      var rest := Culled(bs[1..], dt, aspect, m);
      assert Culled(bs, dt, aspect, m) == (if s.alive then [s] else []) + rest;
    }
  }

  /** Every record of cs is the step of some record of bs. */
  ghost predicate StepsOf(cs: seq<Body>, bs: seq<Body>, dt: real, aspect: real, m: Ops)
    requires aspect > 0.0 && forall k :: 0 <= k < |bs| ==> Valid(bs[k])
  {
    forall k :: 0 <= k < |cs| ==> exists j :: 0 <= j < |bs| && cs[k] == Step(bs[j], dt, aspect, m)
  }

  /** Each survivor of the cull is the step of a particle of the old pool. */
  lemma {:induction false} CulledAreSteps(bs: seq<Body>, dt: real, aspect: real, m: Ops)
    requires aspect > 0.0 && forall k :: 0 <= k < |bs| ==> Valid(bs[k])
    ensures StepsOf(Culled(bs, dt, aspect, m), bs, dt, aspect, m)
  {
    if bs != [] {
      var s := Step(bs[0], dt, aspect, m);
      var tail := bs[1..];
      CulledAreSteps(tail, dt, aspect, m);
      var rest := Culled(tail, dt, aspect, m);
      assert StepsOf(rest, tail, dt, aspect, m);
      var cs := Culled(bs, dt, aspect, m);
      var head := if s.alive then [s] else [];
      assert cs == head + rest;
      forall k | 0 <= k < |cs|
        ensures exists j :: 0 <= j < |bs| && cs[k] == Step(bs[j], dt, aspect, m)
      {
        if k < |head| {
          assert cs[k] == Step(bs[0], dt, aspect, m);
        } else {
          var k' := k - |head|;
          assert cs[k] == rest[k'];
          var j :| 0 <= j < |tail| && rest[k'] == Step(tail[j], dt, aspect, m);
          assert cs[k] == Step(bs[j + 1], dt, aspect, m);
        }
      }
    }
  }

  /** Only particles the step leaves alive come through the cull. */
  lemma {:induction false} CulledAlive(bs: seq<Body>, dt: real, aspect: real, m: Ops)
    requires aspect > 0.0 && forall k :: 0 <= k < |bs| ==> Valid(bs[k])
    ensures forall k :: 0 <= k < |Culled(bs, dt, aspect, m)| ==> Culled(bs, dt, aspect, m)[k].alive
  {
    if bs != [] {
      var s := Step(bs[0], dt, aspect, m);
      CulledAlive(bs[1..], dt, aspect, m);
      assert Culled(bs, dt, aspect, m) == (if s.alive then [s] else []) + Culled(bs[1..], dt, aspect, m);
    }
  }

  /** The cull keeps exactly the survivors, in a pool of any size: the step
      of a particle is in the new pool if and only if that step leaves it
      alive, so a particle past EXIT_X or at the end of its poof leaves the
      pool and every other particle stays. */
  lemma {:induction false} CulledKeepsSurvivors(bs: seq<Body>, dt: real, aspect: real, m: Ops)
    requires aspect > 0.0 && forall k :: 0 <= k < |bs| ==> Valid(bs[k])
    ensures forall j :: 0 <= j < |bs| ==>
      (Step(bs[j], dt, aspect, m) in Culled(bs, dt, aspect, m) <==> Step(bs[j], dt, aspect, m).alive)
  {
    var cs := Culled(bs, dt, aspect, m);
    CulledAlive(bs, dt, aspect, m);
    if bs != [] {
      var s := Step(bs[0], dt, aspect, m);
      var tail := bs[1..];
      CulledKeepsSurvivors(tail, dt, aspect, m);
      var rest := Culled(tail, dt, aspect, m);
      assert cs == (if s.alive then [s] else []) + rest;
      forall j | 0 <= j < |bs|
        ensures Step(bs[j], dt, aspect, m) in cs <==> Step(bs[j], dt, aspect, m).alive
      {
        if j > 0 {
          assert bs[j] == tail[j - 1];
        }
      }
    }
  }

  /** z-orders strictly increase along the pool (creation order). */
  predicate IncreasingZ(bs: seq<Body>) {
    forall i, j :: 0 <= i < j < |bs| ==> bs[i].zOrder < bs[j].zOrder
  }

  /** A step never changes a particle's z-order. */
  lemma StepKeepsZOrder(b: Body, dt: real, aspect: real, m: Ops)
    requires Valid(b) && aspect > 0.0
    ensures Step(b, dt, aspect, m).zOrder == b.zOrder
  {
  }

  /** Every survivor of the cull carries the z-order of a particle of the
      old pool behind the first one. */
  lemma {:induction false} CulledFrom(bs: seq<Body>, dt: real, aspect: real, m: Ops)
    requires aspect > 0.0 && forall k :: 0 <= k < |bs| ==> Valid(bs[k])
    requires IncreasingZ(bs)
    ensures forall k :: 0 <= k < |Culled(bs, dt, aspect, m)| ==>
      |bs| > 0 && bs[0].zOrder <= Culled(bs, dt, aspect, m)[k].zOrder
  {
    CulledAreSteps(bs, dt, aspect, m);
    var cs := Culled(bs, dt, aspect, m);
    forall k | 0 <= k < |cs|
      ensures |bs| > 0 && bs[0].zOrder <= cs[k].zOrder
    {
      var j :| 0 <= j < |bs| && cs[k] == Step(bs[j], dt, aspect, m);
      StepKeepsZOrder(bs[j], dt, aspect, m);
    }
  }

  /** The cull keeps the survivors in their relative order. */
  lemma {:induction false} CulledKeepsOrder(bs: seq<Body>, dt: real, aspect: real, m: Ops)
    requires aspect > 0.0 && forall k :: 0 <= k < |bs| ==> Valid(bs[k])
    requires IncreasingZ(bs)
    ensures IncreasingZ(Culled(bs, dt, aspect, m))
  {
    if bs != [] {
      var s := Step(bs[0], dt, aspect, m);
      var tail := bs[1..];
      CulledKeepsOrder(tail, dt, aspect, m);
      CulledFrom(tail, dt, aspect, m);
      StepKeepsZOrder(bs[0], dt, aspect, m);
      var rest := Culled(tail, dt, aspect, m);
      var head := if s.alive then [s] else [];
      var cs := Culled(bs, dt, aspect, m);
      assert cs == head + rest;
      forall i, j | 0 <= i < j < |cs|
        ensures cs[i].zOrder < cs[j].zOrder
      {
        if i < |head| {
          assert cs[i] == s;
          assert cs[j] == rest[j - |head|];
          assert bs[0].zOrder < tail[0].zOrder;
        } else {
          assert cs[i] == rest[i - |head|] && cs[j] == rest[j - |head|];
        }
      }
    }
  }

  /* ── update, phase 4: spawn ─────────────────── */

  /** _spawnLiveAt(x): a fresh particle moved to x and woken. */
  function Spawned(zOrder: nat, x: real, aspect: real, sizeScale: real, d: Draws): Body
    requires aspect > 0.0 && sizeScale > 0.0 && DrawsValid(d)
  {
    Wake(Initial(zOrder, aspect, sizeScale, d).(x := x))
  }

  /** A spawned particle is a valid, alive, SLEEPING particle at x; its
      wake() restarts a countdown that is still at 0, so it changes nothing,
      and the particle goes through the same staggered wake-up as any other. */
  lemma SpawnedSleeps(zOrder: nat, x: real, aspect: real, sizeScale: real, d: Draws)
    requires aspect > 0.0 && sizeScale > 0.0 && DrawsValid(d)
    ensures var s := Spawned(zOrder, x, aspect, sizeScale, d);
      && Valid(s) && s.alive && s.state == Sleeping && s.zOrder == zOrder
      && s.x == x && s.wakeTimer == 0.0 && s.size == 0.0 && s.opacity == 0.0
      && s == Initial(zOrder, aspect, sizeScale, d).(x := x)
  {
  }

  /** Step 4 of update: a spawn is due when the pool is RUNNING, below the
      peak, and the accumulated timer reaches the interval. */
  predicate SpawnDue(state: SysState, population: nat, peak: nat, timer: real, dt: real, interval: real) {
    state == SysRunning && population < peak && timer + dt >= interval
  }

  /** The pool as a value: the particles' records and the system's own fields. */
  datatype Sys = Sys(bodies: seq<Body>, zCounter: nat, state: SysState,
                     spawnTimer: real, spawnInterval: real, firstWake: bool)

  /** Step 4 of update(dt): while RUNNING and below the peak the spawn timer
      runs; once it reaches the interval, a particle is spawned at the spawn
      line, the timer restarts and a new interval is drawn. */
  function SpawnStep(s: Sys, dt: real, peak: nat, aspect: real, sizeScale: real, r: real, d: Draws): Sys
    requires peak > 0 && Unit(r) && aspect > 0.0 && sizeScale > 0.0 && DrawsValid(d)
  {
    if s.state != SysRunning || |s.bodies| >= peak then s
    else if s.spawnTimer + dt < s.spawnInterval then s.(spawnTimer := s.spawnTimer + dt)
    else s.(bodies := s.bodies + [Spawned(s.zCounter, SPAWN_X_OFFSET, aspect, sizeScale, d)],
            zCounter := s.zCounter + 1, spawnTimer := 0.0, spawnInterval := SpawnInterval(peak, r))
  }

  /** Step 4 adds one particle exactly when a spawn is due, at the end of the
      pool, which never lifts the population above the peak and never
      happens outside RUNNING; it keeps the pool healthy, and a spawn restarts
      the timer with a positive interval. */
  lemma SpawnStepEffect(s: Sys, dt: real, peak: nat, aspect: real, sizeScale: real, r: real, d: Draws)
    requires peak > 0 && Unit(r) && aspect > 0.0 && sizeScale > 0.0 && DrawsValid(d)
    ensures |SpawnStep(s, dt, peak, aspect, sizeScale, r, d).bodies|
      == |s.bodies| + (if SpawnDue(s.state, |s.bodies|, peak, s.spawnTimer, dt, s.spawnInterval) then 1 else 0)
    ensures SpawnStep(s, dt, peak, aspect, sizeScale, r, d).bodies[..|s.bodies|] == s.bodies
    ensures |s.bodies| <= peak ==> |SpawnStep(s, dt, peak, aspect, sizeScale, r, d).bodies| <= peak
    ensures s.state != SysRunning ==> SpawnStep(s, dt, peak, aspect, sizeScale, r, d) == s
    ensures SpawnStep(s, dt, peak, aspect, sizeScale, r, d).state == s.state
    ensures SpawnStep(s, dt, peak, aspect, sizeScale, r, d).firstWake == s.firstWake
    ensures Healthy(s.bodies) ==> Healthy(SpawnStep(s, dt, peak, aspect, sizeScale, r, d).bodies)
    ensures SpawnDue(s.state, |s.bodies|, peak, s.spawnTimer, dt, s.spawnInterval) ==>
      && SpawnStep(s, dt, peak, aspect, sizeScale, r, d).spawnTimer == 0.0
      && SpawnStep(s, dt, peak, aspect, sizeScale, r, d).zCounter == s.zCounter + 1
      && 0.0 < SpawnStep(s, dt, peak, aspect, sizeScale, r, d).spawnInterval
  {
    var out := SpawnStep(s, dt, peak, aspect, sizeScale, r, d);
    if SpawnDue(s.state, |s.bodies|, peak, s.spawnTimer, dt, s.spawnInterval) {
      var b := Spawned(s.zCounter, SPAWN_X_OFFSET, aspect, sizeScale, d);
      SpawnedSleeps(s.zCounter, SPAWN_X_OFFSET, aspect, sizeScale, d);
      SpawnIntervalRange(peak, r);
      assert out.bodies == s.bodies + [b];
      assert out.bodies[..|s.bodies|] == s.bodies;
      assert out.bodies[|s.bodies|] == b;
    }
  }

  /** Records that differ only in velocity keep the pool healthy. */
  lemma SameButVelocityHealthy(bs: seq<Body>, rs: seq<Body>)
    requires Healthy(bs) && SameButVelocity(bs, rs)
    ensures Healthy(rs)
  {
    forall k | 0 <= k < |rs|
      ensures Valid(rs[k]) && rs[k].alive
    {
      assert rs[k].(vx := bs[k].vx, vy := bs[k].vy) == bs[k];
    }
  }

  /** Steps 1 to 3 of update(dt), with the pointer as Input.update(dt) left
      it: the impulse (while the pointer is on screen), the propagation pass,
      and the step-and-cull loop. The pool stays healthy and never grows. */
  ghost function Settled(bs: seq<Body>, active: bool, cx: real, cy: real, cvx: real, cvy: real,
                         dt: real, aspect: real, m: Ops): (cs: seq<Body>)
    requires Healthy(bs) && FrameDt(dt) && aspect > 0.0 && Lawful(m)
    ensures Healthy(cs) && |cs| <= |bs|
  {
    var pushed := if active then Impulses(bs, cx, cy, cvx, cvy, m) else bs;
    ImpulsesOnlyPush(bs, cx, cy, cvx, cvy, m);
    SameButVelocityHealthy(bs, pushed);
    PropagationOnlyVelocities(pushed, m);
    CulledHealthy(Propagation(pushed, m), dt, aspect, m);
    Culled(Propagation(pushed, m), dt, aspect, m)
  }

  /** One update(dt) of the pool, with the pointer's position, velocity and
      on-screen flag as Input.update(dt) left them. */
  ghost function Tick(s: Sys, active: bool, cx: real, cy: real, cvx: real, cvy: real, dt: real,
                      aspect: real, m: Ops, peak: nat, sizeScale: real, r: real, d: Draws): Sys
    requires Healthy(s.bodies) && FrameDt(dt) && aspect > 0.0 && Lawful(m)
    requires peak > 0 && Unit(r) && sizeScale > 0.0 && DrawsValid(d)
  {
    SpawnStep(s.(bodies := Settled(s.bodies, active, cx, cy, cvx, cvy, dt, aspect, m)), dt, peak, aspect, sizeScale, r, d)
  }

  /** An update keeps the pool healthy, keeps the state and the first-wake
      flag, and never lifts the population above both its old size and the
      peak: spawning alone never takes it past the peak. */
  lemma TickBounded(s: Sys, active: bool, cx: real, cy: real, cvx: real, cvy: real, dt: real,
                    aspect: real, m: Ops, peak: nat, sizeScale: real, r: real, d: Draws)
    requires Healthy(s.bodies) && FrameDt(dt) && aspect > 0.0 && Lawful(m)
    requires peak > 0 && Unit(r) && sizeScale > 0.0 && DrawsValid(d)
    ensures Healthy(Tick(s, active, cx, cy, cvx, cvy, dt, aspect, m, peak, sizeScale, r, d).bodies)
    ensures |s.bodies| <= peak ==> |Tick(s, active, cx, cy, cvx, cvy, dt, aspect, m, peak, sizeScale, r, d).bodies| <= peak
    ensures peak < |s.bodies| ==> |Tick(s, active, cx, cy, cvx, cvy, dt, aspect, m, peak, sizeScale, r, d).bodies| <= |s.bodies|
    ensures Tick(s, active, cx, cy, cvx, cvy, dt, aspect, m, peak, sizeScale, r, d).state == s.state
    ensures Tick(s, active, cx, cy, cvx, cvy, dt, aspect, m, peak, sizeScale, r, d).firstWake == s.firstWake
  {
    var settled := s.(bodies := Settled(s.bodies, active, cx, cy, cvx, cvy, dt, aspect, m));
    SpawnStepEffect(settled, dt, peak, aspect, sizeScale, r, d);
  }
}
