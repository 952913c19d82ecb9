/** The frame driver's controller state: the 500 ms frame-rate sampler with
    exponential smoothing, the cooldown-gated automatic adjustment with its
    dead band, and the manual override from the editing panel. Times are
    milliseconds of the page clock and are passed in, as is the window size. */
module FrameDriver {
  import opened Linear
  import opened SceneConfig
  import opened PerformanceController

  /** Frame rate the smoothed estimate starts at. */
  const TARGET_FPS: real := 60.0

  /** Below this smoothed rate the controller degrades. */
  const FPS_LOWER: real := 54.0

  /** Above this smoothed rate the controller improves. */
  const FPS_UPPER: real := 66.0

  /** Minimum time between two automatic adjustments. */
  const PERF_ADJUST_COOLDOWN: real := 1500.0

  /** Minimum time between two frame-rate samples. */
  const FPS_SAMPLE_INTERVAL: real := 500.0

  /** The mutable state the render loop's closures share. */
  datatype Driver = Driver(
    settings: PerformanceSettings,
    uniforms: PerformanceUniforms,
    framesSinceFpsUpdate: nat,
    lastFpsSampleTime: real,
    smoothedFps: real,
    lastPerformanceAdjustTime: real)

  /** The performance uniforms reflect the current settings. */
  predicate UniformsInSync(d: Driver, window: Window) {
    d.uniforms == ApplyPerformanceSettings(d.settings, window)
  }

  /** The controller has waited out its cooldown. */
  predicate CooledDown(d: Driver, now: real) {
    now - d.lastPerformanceAdjustTime >= PERF_ADJUST_COOLDOWN
  }

  /** The frame-clock fields are the same in both states. */
  predicate SameFrameClock(d: Driver, e: Driver) {
    && d.framesSinceFpsUpdate == e.framesSinceFpsUpdate
    && d.lastFpsSampleTime == e.lastFpsSampleTime
    && d.smoothedFps == e.smoothedFps
  }

  /** The state when rendering starts: default settings applied, no frames
      counted, the estimate at the target rate, and both clocks at `now`. */
  function Start(now: real, window: Window): (d: Driver)
    ensures InControllerBox(d.settings) && d.settings == DefaultPerformanceSettings()
    ensures UniformsInSync(d, window)
    ensures d.framesSinceFpsUpdate == 0 && d.smoothedFps == TARGET_FPS
    ensures d.lastFpsSampleTime == now && d.lastPerformanceAdjustTime == now
    ensures !CooledDown(d, now)
  {
    var settings := DefaultPerformanceSettings();
    Driver(settings, ApplyPerformanceSettings(settings, window), 0, now, TARGET_FPS, now)
  }

  /** The automatic adjustment: nothing happens during the cooldown or inside
      the dead band [54, 66]; otherwise one degrade or improve step is tried,
      and only if it succeeds are the uniforms re-derived and the cooldown
      restarted. */
  function AutoAdjustPerformance(d: Driver, fps: real, now: real, window: Window): (r: Driver)
    ensures !CooledDown(d, now) ==> r == d
    ensures FPS_LOWER <= fps <= FPS_UPPER ==> r == d
    ensures r.settings == d.settings ==> r == d
    ensures r.settings != d.settings ==> r.lastPerformanceAdjustTime == now && UniformsInSync(r, window)
    ensures r.settings != d.settings <==>
      CooledDown(d, now) && ((fps < FPS_LOWER && Degrade(d.settings).adjusted) || (fps > FPS_UPPER && Improve(d.settings).adjusted))
    ensures CooledDown(d, now) && fps < FPS_LOWER ==> r.settings == Degrade(d.settings).settings
    ensures CooledDown(d, now) && fps > FPS_UPPER ==> r.settings == Improve(d.settings).settings
    ensures SameFrameClock(r, d)
  {
    if now - d.lastPerformanceAdjustTime < PERF_ADJUST_COOLDOWN then d
    else
      var step :=
        if fps < FPS_LOWER then Degrade(d.settings)
        else if fps > FPS_UPPER then Improve(d.settings)
        else Adjustment(false, d.settings);
      if step.adjusted then
        d.(settings := step.settings,
           uniforms := ApplyPerformanceSettings(step.settings, window),
           lastPerformanceAdjustTime := now)
      else d
  }

  /** The frame rate measured over a sample window: frames per second, so
      the rate times the window's length in seconds is the frame count. */
  function MeasuredFps(frames: nat, elapsed: real): (fps: real)
    requires elapsed > 0.0
    ensures fps >= 0.0
    ensures fps * elapsed == frames as real * 1000.0
  {
    frames as real / elapsed * 1000.0
  }

  /** Exponential smoothing: the new estimate lies between the old estimate
      and the measurement, and keeps 60% of the old distance to it. */
  function Smooth(previous: real, measured: real): (s: real)
    ensures RealMin(previous, measured) <= s <= RealMax(previous, measured)
    ensures s - measured == 0.6 * (previous - measured)
  {
    previous * 0.6 + measured * 0.4
  }

  /** One animation frame: count it, and once at least 500 ms have passed
      since the last sample, take a sample (smooth the rate, reset the
      counter, restart the sample clock) and hand the smoothed rate to the
      controller. The controller runs nowhere else. */
  function Tick(d: Driver, now: real, window: Window): (r: Driver)
    ensures now - d.lastFpsSampleTime < FPS_SAMPLE_INTERVAL ==>
      r == d.(framesSinceFpsUpdate := d.framesSinceFpsUpdate + 1)
    ensures now - d.lastFpsSampleTime >= FPS_SAMPLE_INTERVAL ==>
      && r.framesSinceFpsUpdate == 0
      && r.lastFpsSampleTime == now
      && RealMin(d.smoothedFps, MeasuredFps(d.framesSinceFpsUpdate + 1, now - d.lastFpsSampleTime)) <= r.smoothedFps
      && r.smoothedFps <= RealMax(d.smoothedFps, MeasuredFps(d.framesSinceFpsUpdate + 1, now - d.lastFpsSampleTime))
      && r.smoothedFps == Smooth(d.smoothedFps, MeasuredFps(d.framesSinceFpsUpdate + 1, now - d.lastFpsSampleTime))
    ensures now - d.lastFpsSampleTime >= FPS_SAMPLE_INTERVAL && CooledDown(d, now) ==>
      && (r.smoothedFps < FPS_LOWER ==> r.settings == Degrade(d.settings).settings)
      && (r.smoothedFps > FPS_UPPER ==> r.settings == Improve(d.settings).settings)
    ensures !CooledDown(d, now) ==> r.settings == d.settings
    ensures r.settings != d.settings ==>
      now - d.lastFpsSampleTime >= FPS_SAMPLE_INTERVAL && r.lastPerformanceAdjustTime == now
    ensures r.settings == d.settings ==>
      r.lastPerformanceAdjustTime == d.lastPerformanceAdjustTime && r.uniforms == d.uniforms
    ensures FPS_LOWER <= r.smoothedFps <= FPS_UPPER ==> r.settings == d.settings
    ensures UniformsInSync(d, window) ==> UniformsInSync(r, window)
  {
    var frames := d.framesSinceFpsUpdate + 1;
    var elapsed := now - d.lastFpsSampleTime;
    if elapsed >= FPS_SAMPLE_INTERVAL then
      var smoothed := Smooth(d.smoothedFps, MeasuredFps(frames, elapsed));
      var sampled := d.(framesSinceFpsUpdate := 0, lastFpsSampleTime := now, smoothedFps := smoothed);
      AutoAdjustPerformance(sampled, smoothed, now, window)
    else
      d.(framesSinceFpsUpdate := frames)
  }

  /** The editing panel changed the settings to `edited`: re-derive the
      uniforms and restart the cooldown, so the controller does not undo a
      manual choice straight away. */
  function TriggerPerformanceUpdate(d: Driver, edited: PerformanceSettings, now: real, window: Window): (r: Driver)
    ensures r.settings == edited && UniformsInSync(r, window)
    ensures r.lastPerformanceAdjustTime == now && !CooledDown(r, now)
    ensures SameFrameClock(r, d)
  {
    d.(settings := edited,
       uniforms := ApplyPerformanceSettings(edited, window),
       lastPerformanceAdjustTime := now)
  }

  /** For the 1.5 s after a manual change, whatever frame rate is sampled, the
      controller leaves the manual settings in place. */
  lemma ManualChangeHoldsOffController(d: Driver, edited: PerformanceSettings, now: real, later: real, fps: real, window: Window)
    requires later - now < PERF_ADJUST_COOLDOWN
    ensures AutoAdjustPerformance(TriggerPerformanceUpdate(d, edited, now, window), fps, later, window)
      == TriggerPerformanceUpdate(d, edited, now, window)
    ensures Tick(TriggerPerformanceUpdate(d, edited, now, window), later, window).settings == edited
  {
  }

  /** The state after one frame at each of the given times. */
  function RunFrames(d: Driver, times: seq<real>, window: Window): Driver
    decreases |times|
  {
    if |times| == 0 then d else RunFrames(Tick(d, times[0], window), times[1..], window)
  }

  /** However the frames are timed, the controller keeps the knobs inside its
      box and inside the panel's ranges, and the uniforms in step with them. */
  lemma {:induction false} FramesPreserveInvariants(d: Driver, times: seq<real>, window: Window)
    ensures InControllerBox(d.settings) ==> InControllerBox(RunFrames(d, times, window).settings)
    ensures InPanelRange(d.settings) ==> InPanelRange(RunFrames(d, times, window).settings)
    ensures UniformsInSync(d, window) ==> UniformsInSync(RunFrames(d, times, window), window)
    decreases |times|
  {
    if |times| > 0 {
      var next := Tick(d, times[0], window);
      LaddersKeepRanges(d.settings);
      assert InControllerBox(d.settings) ==> InControllerBox(next.settings);
      assert InPanelRange(d.settings) ==> InPanelRange(next.settings);
      FramesPreserveInvariants(next, times[1..], window);
    }
  }

  /** The state after the controller has been handed each (fps, time) pair in
      turn. */
  function AdjustAll(d: Driver, samples: seq<(real, real)>, window: Window): Driver
    decreases |samples|
  {
    if |samples| == 0 then d
    else AdjustAll(AutoAdjustPerformance(d, samples[0].0, samples[0].1, window), samples[1..], window)
  }

  /** Hysteresis: as long as every sampled rate stays inside the dead band,
      any number of controller invocations changes nothing at all. */
  lemma {:induction false} DeadBandIsStable(d: Driver, samples: seq<(real, real)>, window: Window)
    requires forall i :: 0 <= i < |samples| ==> FPS_LOWER <= samples[i].0 <= FPS_UPPER
    ensures AdjustAll(d, samples, window) == d
    decreases |samples|
  {
    if |samples| > 0 {
      assert AutoAdjustPerformance(d, samples[0].0, samples[0].1, window) == d;
      DeadBandIsStable(d, samples[1..], window);
    }
  }

  /** Under a sustained high rate with the cooldown elapsed at every sample,
      each invocation takes exactly the next improve step, so the settings
      follow the improve ladder. */
  lemma {:induction false} SustainedHighRateClimbsLadder(d: Driver, samples: seq<(real, real)>, window: Window)
    requires forall i :: 0 <= i < |samples| ==> samples[i].0 > FPS_UPPER
    requires forall i :: 0 <= i < |samples| ==> samples[i].1 - d.lastPerformanceAdjustTime >= PERF_ADJUST_COOLDOWN
    requires forall i, j :: 0 <= i < j < |samples| ==> samples[j].1 - samples[i].1 >= PERF_ADJUST_COOLDOWN
    ensures AdjustAll(d, samples, window).settings == ImproveRun(d.settings, |samples|)
    decreases |samples|
  {
    if |samples| > 0 {
      var next := AutoAdjustPerformance(d, samples[0].0, samples[0].1, window);
      assert next.settings == Improve(d.settings).settings;
      var rest := samples[1..];
      forall i | 0 <= i < |rest|
        ensures rest[i].1 - next.lastPerformanceAdjustTime >= PERF_ADJUST_COOLDOWN
      {
        assert rest[i] == samples[i + 1];
        if next.settings != d.settings {
          assert next.lastPerformanceAdjustTime == samples[0].1;
        }
      }
      SustainedHighRateClimbsLadder(next, rest, window);
    }
  }
}
