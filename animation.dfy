// The per-cloud animation state machine of GenerateClouds.UpdateBatches, as a pure step function.
module Animation {
  import opened Vectors
  import opened Config

  /** The mutable animation state of one cloud: its scale and its active flag. */
  datatype Anim = Anim(scale: Vec3, active: bool)

  /** Pre-shrink scale at or below which a shrinking cloud is snapped to zero and deactivated. */
  const SnapThreshold: real := 0.1

  /** The per-axis increment ScaleCloud adds for a direction of +1 (grow) or -1 (shrink). */
  function ScaleStep(s: Settings, dt: real, direction: int): real
  {
    s.sizeScale * dt * direction as real
  }

  function Min(a: real, b: real): real
  {
    if a <= b then a else b
  }

  /**
   * One frame of animation for one cloud whose sampled noise value is `size`.
   * Above the threshold the cloud is (re)activated and grows towards maxScale, clamped there;
   * strictly below it the cloud shrinks, and is snapped to zero and deactivated when its
   * pre-shrink scale is at most SnapThreshold; a value equal to the threshold changes nothing.
   */
  function AnimStep(a: Anim, size: real, s: Settings, dt: real): (r: Anim)
    ensures size == s.minNoiseSize ==> r == a
    ensures size > s.minNoiseSize ==> r.active
    ensures size > s.minNoiseSize && a.active && a.scale.x >= s.maxScale ==> r == a
    ensures size > s.minNoiseSize && !a.active && a.scale.x >= s.maxScale ==> r.scale == Zero
    ensures size > s.minNoiseSize && a.scale.x < s.maxScale ==>
      r.scale.x == Min((if a.active then a.scale.x else 0.0) + s.sizeScale * dt, s.maxScale)
    ensures size < s.minNoiseSize && a.scale.x <= SnapThreshold ==> r == Anim(Zero, false)
    ensures size < s.minNoiseSize && a.scale.x > SnapThreshold ==>
      r.active == a.active && r.scale == Add(a.scale, Uniform(-(s.sizeScale * dt)))
    ensures IsUniform(a.scale) ==> IsUniform(r.scale)
  {
    if size > s.minNoiseSize then
      var localScaleX := a.scale.x;
      var base := if !a.active then Zero else a.scale;
      if localScaleX < s.maxScale then
        var grown := Add(base, Uniform(ScaleStep(s, dt, 1)));
        if grown.x > s.maxScale then Anim(Uniform(s.maxScale), true) else Anim(grown, true)
      else
        Anim(base, true)
    else if size < s.minNoiseSize then
      var localScaleX := a.scale.x;
      var shrunk := Add(a.scale, Uniform(ScaleStep(s, dt, -1)));
      if localScaleX <= SnapThreshold then Anim(Zero, false) else Anim(shrunk, a.active)
    else
      a
  }

  /**
   * The state every cloud keeps: a uniform scale, no larger than maxScale, and zero whenever
   * the cloud is inactive. (A shrink frame can leave the scale below zero, where it stays until a
   * later shrink frame snaps it to zero or grow frames lift it; see ShrinkCanGoNegative.)
   */
  ghost predicate CloudInv(a: Anim, s: Settings)
  {
    && IsUniform(a.scale)
    && a.scale.x <= s.maxScale
    && (!a.active ==> a.scale == Zero)
  }

  /** A freshly built cloud (scale zero, active) satisfies the invariant. */
  lemma InitialCloudInv(s: Settings)
    requires s.maxScale >= 0.0
    ensures CloudInv(Anim(Zero, true), s)
  {
  }

  /** Every animation step preserves the cloud invariant, for a non-negative step size. */
  lemma StepPreservesInv(a: Anim, size: real, s: Settings, dt: real)
    requires CloudInv(a, s)
    requires s.maxScale >= 0.0 && s.sizeScale * dt >= 0.0
    ensures CloudInv(AnimStep(a, size, s, dt), s)
  {
  }

  /** A grow step never leaves the scale above maxScale once it was below it. */
  lemma GrowNeverOvershoots(a: Anim, size: real, s: Settings, dt: real)
    requires size > s.minNoiseSize && a.scale.x < s.maxScale
    ensures AnimStep(a, size, s, dt).scale.x <= s.maxScale
  {
  }

  /** The state after n frames with the same noise value and frame time. */
  function Frames(a: Anim, size: real, s: Settings, dt: real, n: nat): Anim
  {
    if n == 0 then a else AnimStep(Frames(a, size, s, dt, n - 1), size, s, dt)
  }

  /** One grow frame from a uniform scale v that stays within maxScale adds exactly one step. */
  lemma GrowOnce(b: Anim, v: real, size: real, s: Settings, dt: real)
    requires size > s.minNoiseSize && b.scale == Uniform(v) && (b.active || v == 0.0)
    requires v < s.maxScale && v + s.sizeScale * dt <= s.maxScale
    ensures AnimStep(b, size, s, dt) == Anim(Uniform(v + s.sizeScale * dt), true)
  {
  }

  /** One shrink frame of a uniform scale v above SnapThreshold takes off one step and keeps the flag. */
  lemma ShrinkOnce(b: Anim, v: real, size: real, s: Settings, dt: real)
    requires size < s.minNoiseSize && b.scale == Uniform(v) && v > SnapThreshold
    ensures AnimStep(b, size, s, dt) == Anim(Uniform(v - s.sizeScale * dt), b.active)
  {
  }

  /** One grow frame from a uniform scale v below maxScale that one step takes to or past it is clamped to maxScale. */
  lemma GrowClamped(b: Anim, v: real, size: real, s: Settings, dt: real)
    requires size > s.minNoiseSize && b.scale == Uniform(v) && (b.active || v == 0.0)
    requires v < s.maxScale <= v + s.sizeScale * dt
    ensures AnimStep(b, size, s, dt) == Anim(Uniform(s.maxScale), true)
  {
  }

  /** The total of n increments of `step`. */
  function Ramp(step: real, n: nat): real
  {
    if n == 0 then 0.0 else Ramp(step, n - 1) + step
  }

  /** n increments of `step` add up to n * step. */
  lemma {:induction false} RampIsProduct(step: real, n: nat)
    ensures Ramp(step, n) == n as real * step
  {
    if n > 0 {
      RampIsProduct(step, n - 1);
      assert (n - 1) as real * step + step == n as real * step;
    }
  }

  /** For a non-negative step, Ramp grows with n. */
  lemma {:induction false} RampMonotone(step: real, j: nat, n: nat)
    requires step >= 0.0 && j <= n
    ensures Ramp(step, j) <= Ramp(step, n)
  {
    if j < n {
      RampMonotone(step, j, n - 1);
    }
  }

  /** From scale zero, with noise held above the threshold, n frames that stay within maxScale grow linearly. */
  lemma {:induction false} GrowRamp(a: Anim, size: real, s: Settings, dt: real, n: nat)
    requires size > s.minNoiseSize && a.scale == Zero
    requires s.sizeScale * dt > 0.0
    requires Ramp(s.sizeScale * dt, n) <= s.maxScale
    ensures Frames(a, size, s, dt, n).scale == Uniform(Ramp(s.sizeScale * dt, n))
    ensures n > 0 ==> Frames(a, size, s, dt, n).active
  {
    if n > 0 {
      GrowRamp(a, size, s, dt, n - 1);
      var b := Frames(a, size, s, dt, n - 1);
      var v := Ramp(s.sizeScale * dt, n - 1);
      assert b.scale == Uniform(v);
      assert v < s.maxScale;
      GrowOnce(b, v, size, s, dt);
      assert Frames(a, size, s, dt, n) == AnimStep(b, size, s, dt);
    }
  }

  /**
   * From scale zero, with noise held above the threshold, maxScale is reached exactly in the
   * first frame n whose n steps reach it (n = ceil(maxScale / step), by RampIsProduct), and the
   * scale is below maxScale in every frame before.
   */
  lemma GrowTiming(a: Anim, size: real, s: Settings, dt: real, n: nat)
    requires size > s.minNoiseSize && a.scale == Zero
    requires s.sizeScale * dt > 0.0
    requires n >= 1
    requires Ramp(s.sizeScale * dt, n - 1) < s.maxScale <= Ramp(s.sizeScale * dt, n)
    ensures Frames(a, size, s, dt, n) == Anim(Uniform(s.maxScale), true)
    ensures forall j: nat :: j < n ==> Frames(a, size, s, dt, j).scale.x < s.maxScale
  {
    var step := s.sizeScale * dt;
    GrowRamp(a, size, s, dt, n - 1);
    var b := Frames(a, size, s, dt, n - 1);
    assert Frames(a, size, s, dt, n) == AnimStep(b, size, s, dt);
    GrowClamped(b, Ramp(step, n - 1), size, s, dt);
    forall j: nat | j < n
      ensures Frames(a, size, s, dt, j).scale.x < s.maxScale
    {
      RampMonotone(step, j, n - 1);
      GrowRamp(a, size, s, dt, j);
    }
  }

  /** Once at maxScale and active, a cloud whose noise stays above the threshold stays there. */
  lemma {:induction false} GrowHolds(a: Anim, size: real, s: Settings, dt: real, n: nat)
    requires size > s.minNoiseSize && a == Anim(Uniform(s.maxScale), true)
    ensures Frames(a, size, s, dt, n) == a
  {
    if n > 0 {
      GrowHolds(a, size, s, dt, n - 1);
    }
  }

  /** With noise held below the threshold, frames whose pre-shrink scale stays above SnapThreshold shrink linearly. */
  lemma {:induction false} ShrinkRamp(a: Anim, v: real, size: real, s: Settings, dt: real, n: nat)
    requires size < s.minNoiseSize && a.scale == Uniform(v)
    requires s.sizeScale * dt >= 0.0
    requires n > 0 ==> v - Ramp(s.sizeScale * dt, n - 1) > SnapThreshold
    ensures Frames(a, size, s, dt, n) == Anim(Uniform(v - Ramp(s.sizeScale * dt, n)), a.active)
  {
    if n > 0 {
      if n > 1 {
        RampMonotone(s.sizeScale * dt, n - 2, n - 1);
      }
      ShrinkRamp(a, v, size, s, dt, n - 1);
      var b := Frames(a, size, s, dt, n - 1);
      ShrinkOnce(b, v - Ramp(s.sizeScale * dt, n - 1), size, s, dt);
      assert Frames(a, size, s, dt, n) == AnimStep(b, size, s, dt);
    }
  }

  /**
   * With noise held below the threshold, a cloud of scale v becomes dormant (scale zero,
   * inactive) exactly in the first frame n whose pre-shrink scale is at most SnapThreshold,
   * and keeps its active flag in every frame before.
   */
  lemma ShrinkTiming(a: Anim, v: real, size: real, s: Settings, dt: real, n: nat)
    requires size < s.minNoiseSize && a.scale == Uniform(v)
    requires s.sizeScale * dt >= 0.0
    requires n >= 1
    requires v - Ramp(s.sizeScale * dt, n - 1) <= SnapThreshold
    requires n >= 2 ==> v - Ramp(s.sizeScale * dt, n - 2) > SnapThreshold
    ensures Frames(a, size, s, dt, n) == Anim(Zero, false)
    ensures forall j: nat :: j < n ==> Frames(a, size, s, dt, j).active == a.active
  {
    var step := s.sizeScale * dt;
    ShrinkRamp(a, v, size, s, dt, n - 1);
    assert Frames(a, size, s, dt, n) == AnimStep(Frames(a, size, s, dt, n - 1), size, s, dt);
    forall j: nat | j < n
      ensures Frames(a, size, s, dt, j).active == a.active
    {
      if j > 0 {
        RampMonotone(step, j - 1, n - 2);
      }
      ShrinkRamp(a, v, size, s, dt, j);
    }
  }

  /**
   * The scale is not kept non-negative: a cloud just above SnapThreshold shrinking by a larger
   * step is left with a negative scale.
   */
  lemma ShrinkCanGoNegative()
    ensures AnimStep(Anim(Uniform(0.2), true), 0.0, Defaults(1000, 1), 1.0).scale.x < 0.0
  {
  }

  /**
   * A negative scale is not snapped on a grow frame: grow starts from the current scale, so a
   * cloud taken to -0.14 by a 1 s shrink frame is still negative and active after a 0.1 s grow frame.
   */
  lemma NegativeSurvivesGrow()
    ensures var shrunk := AnimStep(Anim(Uniform(0.11), true), 0.0, Defaults(1000, 1), 1.0);
      && shrunk == Anim(Uniform(-0.14), true)
      && AnimStep(shrunk, 0.9, Defaults(1000, 1), 0.1) == Anim(Uniform(-0.115), true)
  {
  }

  /** A noise value held exactly at the threshold leaves a cloud unchanged in every frame, whatever its scale. */
  lemma {:induction false} ThresholdHolds(a: Anim, s: Settings, dt: real, n: nat)
    ensures Frames(a, s.minNoiseSize, s, dt, n) == a
  {
    if n > 0 {
      ThresholdHolds(a, s, dt, n - 1);
    }
  }

  /** The grow scenario: a fresh cloud under noise 0.9 and a frame of 0.1 s reaches scale 0.025. */
  lemma ScenarioGrow()
    ensures AnimStep(Anim(Zero, true), 0.9, Defaults(1000, 1), 0.1) == Anim(Uniform(0.025), true)
  {
  }

  /** The shrink scenario: an active cloud of scale 0.05 under noise 0.1 becomes dormant. */
  lemma ScenarioShrink()
    ensures AnimStep(Anim(Uniform(0.05), true), 0.1, Defaults(1000, 1), 0.1) == Anim(Zero, false)
  {
  }
}
