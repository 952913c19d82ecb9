/** The adaptive performance controller's quality ladders. Degrading walks the
    knobs in the order resolution scale, march steps, denoise strength,
    ambient occlusion; improving walks them in the order ambient occlusion,
    denoise strength, march steps, resolution scale. Each call moves only the
    first knob that can still move, by one clamped step.

    The ladders are specified against a per-knob table (floor, threshold,
    ceiling, step and rank) rather than against the chain of tests that
    implements them. */
module PerformanceController {
  import opened Linear
  import opened SceneConfig

  /** The outcome of one ladder call: whether a step applied, and the
      settings afterwards. */
  datatype Adjustment = Adjustment(adjusted: bool, settings: PerformanceSettings)

  datatype Knob = ResolutionScale | MarchSteps | Denoise | AmbientOcclusion

  /** A knob's current value as an integer (ambient occlusion on is 1). */
  function KnobValue(p: PerformanceSettings, k: Knob): int {
    match k
    case ResolutionScale => p.resolutionScale
    case MarchSteps => p.maxMarchSteps
    case Denoise => p.denoiseStrength
    case AmbientOcclusion => if p.enableAO then 1 else 0
  }

  // ---------------------------------------------------------------------
  // The ladder tables

  /** Position of a knob on the degrade ladder (0 is tried first). */
  function DegradeRank(k: Knob): nat {
    match k
    case ResolutionScale => 0
    case MarchSteps => 1
    case Denoise => 2
    case AmbientOcclusion => 3
  }

  /** The value below which degrading never takes a knob: scale 0.55,
      80 steps, no denoising, occlusion off. */
  function DegradeFloor(k: Knob): int {
    match k
    case ResolutionScale => 55
    case MarchSteps => 80
    case Denoise => 0
    case AmbientOcclusion => 0
  }

  /** How far one degrade step lowers a knob: 0.1, 10 steps, 0.1, on to off. */
  function DegradeStep(k: Knob): nat {
    match k
    case ResolutionScale => 10
    case MarchSteps => 10
    case Denoise => 10
    case AmbientOcclusion => 1
  }

  /** Position of a knob on the improve ladder (0 is tried first). */
  function ImproveRank(k: Knob): nat {
    match k
    case AmbientOcclusion => 0
    case Denoise => 1
    case MarchSteps => 2
    case ResolutionScale => 3
  }

  /** Improving touches a knob only while it is below this value. */
  function ImproveThreshold(k: Knob): int {
    match k
    case AmbientOcclusion => 1
    case Denoise => 100
    case MarchSteps => 180
    case ResolutionScale => 100
  }

  /** The value above which improving never takes a knob. March steps are
      improved only below 180 but clamped at 200. */
  function ImproveCeiling(k: Knob): int {
    match k
    case AmbientOcclusion => 1
    case Denoise => 100
    case MarchSteps => 200
    case ResolutionScale => 100
  }

  /** How far one improve step raises a knob: off to on, 0.1, 10 steps, 0.05. */
  function ImproveStep(k: Knob): nat {
    match k
    case AmbientOcclusion => 1
    case Denoise => 10
    case MarchSteps => 10
    case ResolutionScale => 5
  }

  predicate CanDegrade(p: PerformanceSettings, k: Knob) {
    KnobValue(p, k) > DegradeFloor(k)
  }

  predicate CanImprove(p: PerformanceSettings, k: Knob) {
    KnobValue(p, k) < ImproveThreshold(k)
  }

  /** `k` is the highest-priority knob that degrading can still move. */
  predicate FirstDegradable(p: PerformanceSettings, k: Knob) {
    CanDegrade(p, k) && forall k' :: DegradeRank(k') < DegradeRank(k) ==> !CanDegrade(p, k')
  }

  /** `k` is the highest-priority knob that improving can still move. */
  predicate FirstImprovable(p: PerformanceSettings, k: Knob) {
    CanImprove(p, k) && forall k' :: ImproveRank(k') < ImproveRank(k) ==> !CanImprove(p, k')
  }

  /** No knob can be degraded. */
  predicate DegradeExhausted(p: PerformanceSettings) {
    forall k :: !CanDegrade(p, k)
  }

  /** No knob can be improved. */
  predicate ImproveExhausted(p: PerformanceSettings) {
    forall k :: !CanImprove(p, k)
  }

  /** `q` differs from `p` in knob `k` and in no other knob. */
  predicate OnlyKnobChanged(p: PerformanceSettings, q: PerformanceSettings, k: Knob) {
    KnobValue(q, k) != KnobValue(p, k) && forall k' :: k' != k ==> KnobValue(q, k') == KnobValue(p, k')
  }

  /** The box the controller keeps the knobs in: scale in [0.55, 1], steps in
      [80, 200], denoise in [0, 1]. */
  predicate InControllerBox(p: PerformanceSettings) {
    && 55 <= p.resolutionScale <= 100
    && 80 <= p.maxMarchSteps <= 200
    && 0 <= p.denoiseStrength <= 100
  }

  /** The ranges the editing panel's sliders allow: scale in [0.3, 1], steps
      in [32, 200], denoise in [0, 1]. */
  predicate InPanelRange(p: PerformanceSettings) {
    && 30 <= p.resolutionScale <= 100
    && 32 <= p.maxMarchSteps <= 200
    && 0 <= p.denoiseStrength <= 100
  }

  // ---------------------------------------------------------------------
  // The ladders

  lemma AllKnobsConsidered(p: PerformanceSettings)
    ensures DegradeExhausted(p) <==>
      !CanDegrade(p, ResolutionScale) && !CanDegrade(p, MarchSteps) && !CanDegrade(p, Denoise) && !CanDegrade(p, AmbientOcclusion)
    ensures ImproveExhausted(p) <==>
      !CanImprove(p, ResolutionScale) && !CanImprove(p, MarchSteps) && !CanImprove(p, Denoise) && !CanImprove(p, AmbientOcclusion)
  {
  }

  /** The first degradable knob, spelled out for each rank. */
  lemma FirstDegradableByRank(p: PerformanceSettings)
    ensures FirstDegradable(p, ResolutionScale) <==> p.resolutionScale > 55
    ensures FirstDegradable(p, MarchSteps) <==> p.resolutionScale <= 55 && p.maxMarchSteps > 80
    ensures FirstDegradable(p, Denoise) <==>
      p.resolutionScale <= 55 && p.maxMarchSteps <= 80 && p.denoiseStrength > 0
    ensures FirstDegradable(p, AmbientOcclusion) <==>
      p.resolutionScale <= 55 && p.maxMarchSteps <= 80 && p.denoiseStrength <= 0 && p.enableAO
  {
    assert DegradeRank(ResolutionScale) == 0 && DegradeRank(MarchSteps) == 1;
    assert DegradeRank(Denoise) == 2 && DegradeRank(AmbientOcclusion) == 3;
    assert CanDegrade(p, ResolutionScale) <==> p.resolutionScale > 55;
    assert CanDegrade(p, MarchSteps) <==> p.maxMarchSteps > 80;
    assert CanDegrade(p, Denoise) <==> p.denoiseStrength > 0;
  }

  /** The first improvable knob, spelled out for each rank. */
  lemma FirstImprovableByRank(p: PerformanceSettings)
    ensures FirstImprovable(p, AmbientOcclusion) <==> !p.enableAO
    ensures FirstImprovable(p, Denoise) <==> p.enableAO && p.denoiseStrength < 100
    ensures FirstImprovable(p, MarchSteps) <==>
      p.enableAO && p.denoiseStrength >= 100 && p.maxMarchSteps < 180
    ensures FirstImprovable(p, ResolutionScale) <==>
      p.enableAO && p.denoiseStrength >= 100 && p.maxMarchSteps >= 180 && p.resolutionScale < 100
  {
    assert ImproveRank(AmbientOcclusion) == 0 && ImproveRank(Denoise) == 1;
    assert ImproveRank(MarchSteps) == 2 && ImproveRank(ResolutionScale) == 3;
    assert CanImprove(p, AmbientOcclusion) <==> !p.enableAO;
    assert CanImprove(p, Denoise) <==> p.denoiseStrength < 100;
    assert CanImprove(p, MarchSteps) <==> p.maxMarchSteps < 180;
  }

  /** One degrade step: lower the first knob, in ladder order, that is above
      its floor by one step, clamped at the floor. It reports a change exactly
      when it made one. */
  function Degrade(p: PerformanceSettings): (r: Adjustment)
    ensures r.adjusted <==> r.settings != p
  {
    if p.resolutionScale > 55 then
      Adjustment(true, p.(resolutionScale := Max(55, p.resolutionScale - 10)))
    else if p.maxMarchSteps > 80 then
      Adjustment(true, p.(maxMarchSteps := Max(80, p.maxMarchSteps - 10)))
    else if p.denoiseStrength > 0 then
      Adjustment(true, p.(denoiseStrength := Max(0, p.denoiseStrength - 10)))
    else if p.enableAO then
      Adjustment(true, p.(enableAO := false))
    else
      Adjustment(false, p)
  }

  /** One improve step: raise the first knob, in ladder order, that is below
      its threshold by one step, clamped at its ceiling. It reports a change
      exactly when it made one. */
  function Improve(p: PerformanceSettings): (r: Adjustment)
    ensures r.adjusted <==> r.settings != p
  {
    if !p.enableAO then
      Adjustment(true, p.(enableAO := true))
    else if p.denoiseStrength < 100 then
      Adjustment(true, p.(denoiseStrength := Min(100, p.denoiseStrength + 10)))
    else if p.maxMarchSteps < 180 then
      Adjustment(true, p.(maxMarchSteps := Min(200, p.maxMarchSteps + 10)))
    else if p.resolutionScale < 100 then
      Adjustment(true, p.(resolutionScale := Min(100, p.resolutionScale + 5)))
    else
      Adjustment(false, p)
  }

  /** Degrading follows the ladder table: it fails, changing nothing, exactly
      when every knob is at its floor; otherwise it moves the first
      degradable knob one step down, clamped at its floor, and no other knob.
      No knob ever goes up. */
  lemma DegradeFollowsLadder(p: PerformanceSettings)
    ensures !Degrade(p).adjusted <==> DegradeExhausted(p)
    ensures forall k :: FirstDegradable(p, k) ==>
      && OnlyKnobChanged(p, Degrade(p).settings, k)
      && KnobValue(Degrade(p).settings, k) == Max(DegradeFloor(k), KnobValue(p, k) - DegradeStep(k))
    ensures forall k :: KnobValue(Degrade(p).settings, k) <= KnobValue(p, k)
  {
    AllKnobsConsidered(p);
    FirstDegradableByRank(p);
  }

  /** Improving follows the ladder table: it fails, changing nothing, exactly
      when every knob is at its threshold; otherwise it moves the first
      improvable knob one step up, clamped at its ceiling, and no other knob.
      No knob ever goes down. */
  lemma ImproveFollowsLadder(p: PerformanceSettings)
    ensures !Improve(p).adjusted <==> ImproveExhausted(p)
    ensures forall k :: FirstImprovable(p, k) ==>
      && OnlyKnobChanged(p, Improve(p).settings, k)
      && KnobValue(Improve(p).settings, k) == Min(ImproveCeiling(k), KnobValue(p, k) + ImproveStep(k))
    ensures forall k :: KnobValue(Improve(p).settings, k) >= KnobValue(p, k)
  {
    AllKnobsConsidered(p);
    FirstImprovableByRank(p);
  }

  /** Both ladders keep the controller's box, and the panel's ranges. */
  lemma LaddersKeepRanges(p: PerformanceSettings)
    ensures InControllerBox(p) ==> InControllerBox(Degrade(p).settings) && InControllerBox(Improve(p).settings)
    ensures InPanelRange(p) ==> InPanelRange(Degrade(p).settings) && InPanelRange(Improve(p).settings)
  {
  }

  /** A successful degrade or improve changes exactly one knob, and it is the
      first one its ladder can move; every other field is unchanged. */
  lemma {:induction false} SuccessfulStepChangesExactlyOneKnob(p: PerformanceSettings)
    ensures Degrade(p).adjusted ==> exists k :: FirstDegradable(p, k) && OnlyKnobChanged(p, Degrade(p).settings, k)
    ensures Improve(p).adjusted ==> exists k :: FirstImprovable(p, k) && OnlyKnobChanged(p, Improve(p).settings, k)
  {
    AllKnobsConsidered(p);
    if Degrade(p).adjusted {
      var k := if CanDegrade(p, ResolutionScale) then ResolutionScale
        else if CanDegrade(p, MarchSteps) then MarchSteps
        else if CanDegrade(p, Denoise) then Denoise
        else AmbientOcclusion;
      assert FirstDegradable(p, k);
    }
    if Improve(p).adjusted {
      var k := if CanImprove(p, AmbientOcclusion) then AmbientOcclusion
        else if CanImprove(p, Denoise) then Denoise
        else if CanImprove(p, MarchSteps) then MarchSteps
        else ResolutionScale;
      assert FirstImprovable(p, k);
    }
  }

  // ---------------------------------------------------------------------
  // Ladder lengths

  /** Number of whole steps of size `b` needed to cover a gap of `a`. */
  function CeilDiv(a: int, b: nat): nat
    requires b > 0
  {
    if a <= 0 then 0 else (a + b - 1) / b
  }

  /** Closing a positive gap by one step of its own size needs one step fewer.
      Only the step sizes of the ladders occur. */
  lemma CeilDivStep(a: int, b: nat)
    requires a > 0 && (b == 1 || b == 5 || b == 10)
    ensures CeilDiv(a - b, b) == CeilDiv(a, b) - 1
  {
  }

  /** Steps a knob still has to go down its degrade ladder. */
  function DegradeKnobDistance(p: PerformanceSettings, k: Knob): nat {
    CeilDiv(KnobValue(p, k) - DegradeFloor(k), DegradeStep(k))
  }

  /** Steps a knob still has to go up its improve ladder. */
  function ImproveKnobDistance(p: PerformanceSettings, k: Knob): nat {
    CeilDiv(ImproveThreshold(k) - KnobValue(p, k), ImproveStep(k))
  }

  /** Number of successful degrade calls left before the ladder is exhausted. */
  function DegradeDistance(p: PerformanceSettings): nat {
    DegradeKnobDistance(p, ResolutionScale) + DegradeKnobDistance(p, MarchSteps)
      + DegradeKnobDistance(p, Denoise) + DegradeKnobDistance(p, AmbientOcclusion)
  }

  /** Number of successful improve calls left before the ladder is exhausted. */
  function ImproveDistance(p: PerformanceSettings): nat {
    ImproveKnobDistance(p, AmbientOcclusion) + ImproveKnobDistance(p, Denoise)
      + ImproveKnobDistance(p, MarchSteps) + ImproveKnobDistance(p, ResolutionScale)
  }

  /** Each successful degrade brings the ladder exactly one step closer to
      exhaustion, and degrading fails exactly at distance 0. */
  lemma {:induction false} DegradeShortensLadder(p: PerformanceSettings)
    ensures !Degrade(p).adjusted <==> DegradeDistance(p) == 0
    ensures Degrade(p).adjusted ==> DegradeDistance(Degrade(p).settings) == DegradeDistance(p) - 1
  {
    if p.resolutionScale > 55 {
      CeilDivStep(p.resolutionScale - 55, 10);
    } else if p.maxMarchSteps > 80 {
      CeilDivStep(p.maxMarchSteps - 80, 10);
    } else if p.denoiseStrength > 0 {
      CeilDivStep(p.denoiseStrength, 10);
    }
  }

  /** Each successful improve brings the ladder exactly one step closer to
      exhaustion, and improving fails exactly at distance 0. */
  lemma {:induction false} ImproveShortensLadder(p: PerformanceSettings)
    ensures !Improve(p).adjusted <==> ImproveDistance(p) == 0
    ensures Improve(p).adjusted ==> ImproveDistance(Improve(p).settings) == ImproveDistance(p) - 1
  {
    if !p.enableAO {
    } else if p.denoiseStrength < 100 {
      CeilDivStep(100 - p.denoiseStrength, 10);
    } else if p.maxMarchSteps < 180 {
      CeilDivStep(180 - p.maxMarchSteps, 10);
    } else if p.resolutionScale < 100 {
      CeilDivStep(100 - p.resolutionScale, 5);
    }
  }

  /** The settings after `n` consecutive degrade calls. */
  function DegradeRun(p: PerformanceSettings, n: nat): PerformanceSettings
    decreases n
  {
    if n == 0 then p else DegradeRun(Degrade(p).settings, n - 1)
  }

  /** The settings after `n` consecutive improve calls. */
  function ImproveRun(p: PerformanceSettings, n: nat): PerformanceSettings
    decreases n
  {
    if n == 0 then p else ImproveRun(Improve(p).settings, n - 1)
  }

  /** After `n` degrading calls the ladder is `n` steps shorter, down to 0. */
  lemma {:induction false} DegradeRunDistance(p: PerformanceSettings, n: nat)
    ensures DegradeDistance(DegradeRun(p, n)) == Max(DegradeDistance(p) - n, 0)
    decreases n
  {
    if n > 0 {
      var q := Degrade(p).settings;
      DegradeShortensLadder(p);
      DegradeRunDistance(q, n - 1);
      assert DegradeRun(p, n) == DegradeRun(q, n - 1);
    }
  }

  /** Repeated degrading keeps the controller's box and the panel's ranges. */
  lemma {:induction false} DegradeRunStaysInRange(p: PerformanceSettings, n: nat)
    ensures InControllerBox(p) ==> InControllerBox(DegradeRun(p, n))
    ensures InPanelRange(p) ==> InPanelRange(DegradeRun(p, n))
    decreases n
  {
    if n > 0 {
      var q := Degrade(p).settings;
      LaddersKeepRanges(p);
      DegradeRunStaysInRange(q, n - 1);
      assert DegradeRun(p, n) == DegradeRun(q, n - 1);
    }
  }

  /** Repeated degrading succeeds exactly `DegradeDistance(p)` times and then returns
      false for ever: the ladder always terminates. */
  lemma RepeatedDegradeTerminates(p: PerformanceSettings, n: nat)
    ensures Degrade(DegradeRun(p, n)).adjusted <==> n < DegradeDistance(p)
  {
    DegradeRunDistance(p, n);
    DegradeShortensLadder(DegradeRun(p, n));
  }

  /** After `n` improving calls the ladder is `n` steps shorter, down to 0. */
  lemma {:induction false} ImproveRunDistance(p: PerformanceSettings, n: nat)
    ensures ImproveDistance(ImproveRun(p, n)) == Max(ImproveDistance(p) - n, 0)
    decreases n
  {
    if n > 0 {
      var q := Improve(p).settings;
      ImproveShortensLadder(p);
      ImproveRunDistance(q, n - 1);
      assert ImproveRun(p, n) == ImproveRun(q, n - 1);
    }
  }

  /** Repeated improving keeps the controller's box and the panel's ranges. */
  lemma {:induction false} ImproveRunStaysInRange(p: PerformanceSettings, n: nat)
    ensures InControllerBox(p) ==> InControllerBox(ImproveRun(p, n))
    ensures InPanelRange(p) ==> InPanelRange(ImproveRun(p, n))
    decreases n
  {
    if n > 0 {
      var q := Improve(p).settings;
      LaddersKeepRanges(p);
      ImproveRunStaysInRange(q, n - 1);
      assert ImproveRun(p, n) == ImproveRun(q, n - 1);
    }
  }

  /** Repeated improving succeeds exactly `ImproveDistance(p)` times and then returns
      false for ever: the ladder always terminates. */
  lemma RepeatedImproveTerminates(p: PerformanceSettings, n: nat)
    ensures Improve(ImproveRun(p, n)).adjusted <==> n < ImproveDistance(p)
  {
    ImproveRunDistance(p, n);
    ImproveShortensLadder(ImproveRun(p, n));
  }

  /** The lowest tier the controller can reach from inside its box. */
  const LowestTier: PerformanceSettings := PerformanceSettings(55, 80, false, 0)

  /** From the default settings, exactly ten degrade steps (five on the
      scale, four on the march steps, one on occlusion) reach the lowest tier,
      after which degrading stops. */
  lemma DefaultDegradesToLowestTierInTenSteps()
    ensures DegradeDistance(DefaultPerformanceSettings()) == 10
    ensures DegradeRun(DefaultPerformanceSettings(), 10) == LowestTier
    ensures !Degrade(LowestTier).adjusted
  {
    var p := DefaultPerformanceSettings();
    assert DegradeKnobDistance(p, ResolutionScale) == 5;
    assert DegradeKnobDistance(p, MarchSteps) == 4;
    assert DegradeKnobDistance(p, Denoise) == 0;
    RepeatedDegradeTerminates(p, 10);
    DegradeRunStaysInRange(p, 10);
    var q := DegradeRun(p, 10);
    AllKnobsConsidered(q);
    assert !CanDegrade(q, ResolutionScale) && !CanDegrade(q, MarchSteps);
    assert !CanDegrade(q, Denoise) && !CanDegrade(q, AmbientOcclusion);
  }

  /** From the lowest tier, recovery takes exactly thirty improve steps (one
      for occlusion, ten for denoise, ten for march steps, nine for the
      scale); the ladder then stops with full resolution restored. */
  lemma RecoveryFromLowestTierTakesThirtySteps()
    ensures ImproveDistance(LowestTier) == 30
    ensures forall n: nat :: n < 30 ==> Improve(ImproveRun(LowestTier, n)).adjusted
    ensures !Improve(ImproveRun(LowestTier, 30)).adjusted
    ensures ImproveRun(LowestTier, 30).resolutionScale == 100
    ensures ImproveRun(LowestTier, 30).enableAO && ImproveRun(LowestTier, 30).denoiseStrength == 100
  {
    assert ImproveDistance(LowestTier) == 30 by {
      var p := LowestTier;
      assert ImproveKnobDistance(p, AmbientOcclusion) == 1;
      assert ImproveKnobDistance(p, Denoise) == 10;
      assert ImproveKnobDistance(p, MarchSteps) == 10;
      assert ImproveKnobDistance(p, ResolutionScale) == 9;
    }
    forall n: nat | n < 30
      ensures Improve(ImproveRun(LowestTier, n)).adjusted
    {
      RepeatedImproveTerminates(LowestTier, n);
    }
    ImprovedToExhaustion(LowestTier, 30);
  }

  /** Once improving is exhausted within the panel's ranges, every knob is at full
      quality. */
  lemma ImprovedToExhaustion(p: PerformanceSettings, n: nat)
    requires InPanelRange(p) && n == ImproveDistance(p)
    ensures !Improve(ImproveRun(p, n)).adjusted
    ensures ImproveRun(p, n).resolutionScale == 100
    ensures ImproveRun(p, n).enableAO && ImproveRun(p, n).denoiseStrength == 100
  {
    RepeatedImproveTerminates(p, n);
    ImproveRunStaysInRange(p, n);
    var q := ImproveRun(p, n);
    AllKnobsConsidered(q);
    assert !CanImprove(q, ResolutionScale) && !CanImprove(q, Denoise) && !CanImprove(q, AmbientOcclusion);
  }

  // ---------------------------------------------------------------------
  // Deriving the uniforms

  /** The browser window's inner size in CSS pixels. */
  datatype Window = Window(width: nat, height: nat)

  /** The performance-derived uniforms. */
  datatype PerformanceUniforms = PerformanceUniforms(
    resolution: Vec2,
    maxMarchSteps: int,
    aoIntensity: int,
    denoiseStrength: real)

  /** The uniforms the shading program reads for a given setting: the render
      resolution is the window scaled by the resolution scale, the march-step
      budget is the whole number of steps, occlusion is a 0/1 gate and denoise
      strength is copied as a fraction. */
  function ApplyPerformanceSettings(p: PerformanceSettings, window: Window): (u: PerformanceUniforms)
    ensures u.resolution.x * 100.0 == window.width as real * p.resolutionScale as real
    ensures u.resolution.y * 100.0 == window.height as real * p.resolutionScale as real
    ensures u.maxMarchSteps == p.maxMarchSteps
    ensures (u.aoIntensity == 1 <==> p.enableAO) && (u.aoIntensity == 0 <==> !p.enableAO)
    ensures u.denoiseStrength * 100.0 == p.denoiseStrength as real
  {
    PerformanceUniforms(
      Vec2(window.width as real * (p.resolutionScale as real / 100.0),
           window.height as real * (p.resolutionScale as real / 100.0)),
      p.maxMarchSteps,
      if p.enableAO then 1 else 0,
      p.denoiseStrength as real / 100.0)
  }

  /** Reading the settings back from the uniforms (needs a non-empty window). */
  function SettingsFromUniforms(u: PerformanceUniforms, window: Window): PerformanceSettings
    requires window.width > 0
  {
    PerformanceSettings(
      (u.resolution.x * 100.0 / window.width as real).Floor,
      u.maxMarchSteps,
      u.aoIntensity == 1,
      (u.denoiseStrength * 100.0).Floor)
  }

  /** The uniforms lose nothing: on a non-empty window the settings can be
      read back from them exactly, so two settings that differ always reach
      the shading program as different uniforms. */
  lemma UniformsDetermineSettings(p: PerformanceSettings, window: Window)
    requires window.width > 0
    ensures SettingsFromUniforms(ApplyPerformanceSettings(p, window), window) == p
  {
    var u := ApplyPerformanceSettings(p, window);
    var w := window.width as real;
    assert u.resolution.x * 100.0 / w == p.resolutionScale as real;
    assert u.denoiseStrength * 100.0 == p.denoiseStrength as real;
  }

  /** Within the panel's ranges the render resolution never exceeds the
      window and never drops below 30% of it; within the controller's box it
      never drops below 55%. */
  lemma ResolutionWithinWindow(p: PerformanceSettings, window: Window)
    requires InPanelRange(p)
    ensures ApplyPerformanceSettings(p, window).resolution.x <= window.width as real
    ensures ApplyPerformanceSettings(p, window).resolution.y <= window.height as real
    ensures ApplyPerformanceSettings(p, window).resolution.x >= window.width as real * 0.3
    ensures ApplyPerformanceSettings(p, window).resolution.y >= window.height as real * 0.3
    ensures InControllerBox(p) ==> ApplyPerformanceSettings(p, window).resolution.x >= window.width as real * 0.55
    ensures InControllerBox(p) ==> ApplyPerformanceSettings(p, window).resolution.y >= window.height as real * 0.55
    ensures 0.0 <= ApplyPerformanceSettings(p, window).denoiseStrength <= 1.0
  {
    var u := ApplyPerformanceSettings(p, window);
    var s := p.resolutionScale as real;
    AxisBounds(window.width as real, s, u.resolution.x);
    AxisBounds(window.height as real, s, u.resolution.y);
  }

  /** One axis of the render resolution: the window extent `a` scaled by `s`
      hundredths lies between 30% (55% from a scale of 55 up) and 100% of `a`. */
  lemma AxisBounds(a: real, s: real, x: real)
    requires 0.0 <= a && 30.0 <= s <= 100.0 && x == a * (s / 100.0)
    ensures x <= a && x >= a * 0.3
    ensures s >= 55.0 ==> x >= a * 0.55
  {
    ScaledBounds(a, s);
  }

  /** Bounds on `a` scaled by `s` hundredths, for `s` in the panel's range. */
  lemma ScaledBounds(a: real, s: real)
    requires 0.0 <= a && 30.0 <= s <= 100.0
    ensures a * (s / 100.0) <= a
    ensures a * (s / 100.0) >= a * 0.3
    ensures s >= 55.0 ==> a * (s / 100.0) >= a * 0.55
  {
    MulMonotone(a, s / 100.0, 1.0);
    MulMonotone(a, 0.3, s / 100.0);
    if s >= 55.0 {
      MulMonotone(a, 0.55, s / 100.0);
    }
  }

  lemma MulMonotone(a: real, b: real, c: real)
    requires 0.0 <= a && b <= c
    ensures a * b <= a * c
  {
  }

}
