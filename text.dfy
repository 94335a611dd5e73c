/** The text overlay's fade of js/text.js: one opacity that update(dt) walks
    towards a target opacity of 0 (hidden) or 1 (shown), copied into the two
    tinted text materials. */
module TextOverlay {
  import opened Numeric
  import opened Config

  /** Opacity units per second: a full fade takes 1 / 3.5 s, about 286 ms. */
  const FADE_SPEED: real := 3.5

  /** Closer than this to the target, the opacity jumps onto it. */
  const SNAP: real := 0.005

  /** The module's opacity and target, and the opacities of the two
      materials (white text on the background, black text inside shapes). */
  datatype Fade = Fade(opacity: real, targetOpacity: real, bgOpacity: real, shapeOpacity: real)

  /** The fade's invariant: the opacity lies in [0,1] and the target is one of
      the two values show() and hide() set. */
  predicate FadeValid(f: Fade) {
    0.0 <= f.opacity <= 1.0 && (f.targetOpacity == 0.0 || f.targetOpacity == 1.0)
  }

  function Abs(v: real): real {
    if v < 0.0 then -v else v
  }

  /** update(dt). */
  function FadeStep(f: Fade, dt: real): Fade {
    if f.opacity == f.targetOpacity then f
    else
      var dir := if f.targetOpacity > f.opacity then 1.0 else -1.0;
      var stepped := Min(1.0, Max(0.0, f.opacity + dir * FADE_SPEED * dt));
      var next := if Abs(stepped - f.targetOpacity) < SNAP then f.targetOpacity else stepped;
      f.(opacity := next, bgOpacity := next, shapeOpacity := next)
  }

  /** One update leaves a settled fade alone. Otherwise the new opacity lies
      between the old one and the target (it never overshoots and stays in
      [0,1]), both materials show it, and either it has reached the target or
      it moved by exactly FADE_SPEED * dt and is still at least SNAP away. */
  lemma FadeStepEffect(f: Fade, dt: real)
    requires FadeValid(f) && FrameDt(dt)
    ensures var r := FadeStep(f, dt);
      && FadeValid(r) && r.targetOpacity == f.targetOpacity
      && (f.opacity == f.targetOpacity ==> r == f)
      && (f.opacity != f.targetOpacity ==>
            && r.bgOpacity == r.opacity && r.shapeOpacity == r.opacity
            && (f.opacity < f.targetOpacity ==> f.opacity <= r.opacity <= f.targetOpacity)
            && (f.targetOpacity < f.opacity ==> f.targetOpacity <= r.opacity <= f.opacity)
            && (r.opacity == f.targetOpacity
                || (Abs(r.opacity - f.opacity) == FADE_SPEED * dt && Abs(r.opacity - f.targetOpacity) >= SNAP)))
  {
  }

  /** n updates of the same dt. */
  function Fades(f: Fade, dt: real, n: nat): Fade
    decreases n
  {
    if n == 0 then f else Fades(FadeStep(f, dt), dt, n - 1)
  }

  /** The fade completes: once n frames cover the distance to the target,
      the opacity has reached it. */
  lemma {:induction false} FadeCompletes(f: Fade, dt: real, n: nat)
    requires FadeValid(f) && FrameDt(dt)
    requires Abs(f.targetOpacity - f.opacity) <= n as real * FADE_SPEED * dt
    ensures Fades(f, dt, n).opacity == f.targetOpacity
    decreases n
  {
    if n > 0 {
      var g := FadeStep(f, dt);
      FadeStepEffect(f, dt);
      if f.opacity == f.targetOpacity {
        assert g == f;
        FadeStayed(g, dt, n - 1);
      } else if g.opacity == f.targetOpacity {
        FadeStayed(g, dt, n - 1);
      } else {
        assert Abs(f.targetOpacity - g.opacity) == Abs(f.targetOpacity - f.opacity) - FADE_SPEED * dt;
        assert (n - 1) as real * FADE_SPEED * dt == n as real * FADE_SPEED * dt - FADE_SPEED * dt;
        FadeCompletes(g, dt, n - 1);
      }
    }
  }

  /** A fade that has reached its target stays there. */
  lemma {:induction false} FadeStayed(f: Fade, dt: real, n: nat)
    requires f.opacity == f.targetOpacity
    ensures Fades(f, dt, n) == f
    decreases n
  {
    if n > 0 {
      FadeStayed(FadeStep(f, dt), dt, n - 1);
    }
  }

  /** At the largest frame time a full fade from hidden to shown takes six frames. */
  lemma ShowTakesSixFrames(f: Fade)
    requires f.opacity == 0.0 && f.targetOpacity == 1.0
    ensures Fades(f, MAX_DT, 6).opacity == 1.0
    ensures Fades(f, MAX_DT, 5).opacity < 1.0
  {
    FadeCompletes(f, MAX_DT, 6);
    var f1 := FadeStep(f, MAX_DT);
    var f2 := FadeStep(f1, MAX_DT);
    var f3 := FadeStep(f2, MAX_DT);
    var f4 := FadeStep(f3, MAX_DT);
    var f5 := FadeStep(f4, MAX_DT);
    assert f5.opacity == 0.875;
    assert Fades(f4, MAX_DT, 1) == f5;
    assert Fades(f2, MAX_DT, 3) == f5;
    assert Fades(f, MAX_DT, 5) == f5;
  }

  class TextFade {
    var opacity: real
    var targetOpacity: real
    var bgOpacity: real
    var shapeOpacity: real

    function State(): Fade
      reads this
    {
      Fade(opacity, targetOpacity, bgOpacity, shapeOpacity)
    }

    /** The module's start values: shown, with the materials at their default opacity 1. */
    constructor ()
      ensures State() == Fade(1.0, 1.0, 1.0, 1.0)
      ensures FadeValid(State())
    {
      opacity, targetOpacity := 1.0, 1.0;
      bgOpacity, shapeOpacity := 1.0, 1.0;
    }

    /** update(dt). */
    method Update(dt: real)
      modifies this
      ensures State() == FadeStep(old(State()), dt)
    {
      if opacity == targetOpacity {
        return;
      }
      var dir := if targetOpacity > opacity then 1.0 else -1.0;
      opacity := Min(1.0, Max(0.0, opacity + dir * FADE_SPEED * dt));
      if Abs(opacity - targetOpacity) < SNAP {
        opacity := targetOpacity;
      }
      bgOpacity := opacity;
      shapeOpacity := opacity;
    }

    /** show(): only the target changes. */
    method Show()
      modifies this
      ensures State() == old(State()).(targetOpacity := 1.0)
      ensures old(FadeValid(State())) ==> FadeValid(State())
    {
      targetOpacity := 1.0;
    }

    /** hide(): only the target changes. */
    method Hide()
      modifies this
      ensures State() == old(State()).(targetOpacity := 0.0)
      ensures old(FadeValid(State())) ==> FadeValid(State())
    {
      targetOpacity := 0.0;
    }
  }
}
