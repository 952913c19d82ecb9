# Host-side model of an SDF ray-marching renderer

The renderer draws a full-screen quad whose fragment program ray-marches a
small scene of signed-distance primitives lit by rectangular area lights. This
project models the host side of that renderer, the part that runs outside the
shading program:

- **Scene configuration** (module `SceneConfig`). This covers:
  - the buffer capacities: 8 shapes and 3 area lights;
  - the tables that map primitive and shading-model names to the integer codes
    the shading program switches on;
  - the default scene, lights, sky and performance settings.
- **Uniform marshalling** (module `Uniforms`). A variable-length shape or light
  list is copied into fixed-capacity uniform arrays:
  - active entries are packed in list order;
  - entries past the capacity are dropped;
  - every unused slot is overwritten with an inert sentinel, parked far from
    the camera and with no colour.
- **The adaptive quality controller** (module `PerformanceController`). Two
  ladders act on four quality knobs:
  - the degrade ladder lowers the resolution scale, then the march-step budget,
    then denoising, then ambient occlusion;
  - the improve ladder raises ambient occlusion, then denoising, then march
    steps, then resolution;
  - one more function derives the performance uniforms from the knobs.
- **The frame driver** (module `FrameDriver`). This covers:
  - the 500 ms frame-rate sampler with exponential smoothing;
  - the automatic adjustment, gated by a 1.5 s cooldown and a [54, 66] fps dead
    band;
  - the manual override from the editing panel.

Module `Linear` holds plain value types for the three.js vectors, matrices,
colours and Euler angles. It also holds the record `ThreeOps` of three.js
numerics that the model leaves uninterpreted:
- Euler-to-matrix conversion;
- normalisation;
- rotation from a normal;
- hex colour parsing.

Units and representation:
- The resolution scale and the denoise strength are integer hundredths, so 100
  stands for 1.0. Every value the controller or the editing panel produces is a
  whole number of hundredths: panel steps are 0.05 and 0.01, and controller
  steps are 0.1 and 0.05.
- March steps are integers.
- Frame rates and times are real milliseconds.

The degrade and improve steps are specified against a separate, table-driven
reference definition of the ladders (per knob: rank, floor or threshold, step, ceiling).
The lemmas prove that the source's if-chains follow that table. They also prove
that each ladder terminates after exactly a computed number of steps, that both
ladders keep the knobs inside the controller's box and the panel's ranges, and
that the frame driver keeps the uniforms in step with the settings.

## Model

| member | source | states |
|---|---|---|
| Linear.Transpose | src/renderer/utils/uniforms.js:41 | entry (i, j) of the result is entry (j, i) of the input |
| Linear.TransposeInvolution | src/renderer/utils/uniforms.js:41-49 | transposing twice is the identity map, and the identity matrix written to sentinel slots is its own transpose |
| SceneConfig.TypeCode | src/renderer/utils/uniforms.js:24 | primitive codes are valid indices into the name list; a code decodes back to the name exactly when the name is in the table; unknown names fall back to code 0 |
| SceneConfig.ShaderCode | src/renderer/utils/uniforms.js:25 | the same for shading-model codes: valid index, decodes back iff known, fallback 0 |
| SceneConfig.PrimitiveTableIsBijective | src/renderer/config/sceneConfig.js:6-12 | the primitive table's keys are exactly the five names, its values exactly 0..4, and no two names share a code |
| SceneConfig.ShaderTableIsBijective | src/renderer/config/sceneConfig.js:14-17 | the shading-model table has keys pbr and glass only, mapped to 0 and 1, and every code decodes back |
| SceneConfig.DefaultPerformanceSettings | src/renderer/config/sceneConfig.js:19-24 | the default knobs are full resolution, 120 march steps, occlusion on and no denoise |
| SceneConfig.CreateDefaultShapes | src/renderer/config/sceneConfig.js:35-132 | the default scene fills the shape capacity exactly; every kind and shader is a table key; material parameters lie in [0, 1]; names are pairwise distinct |
| SceneConfig.DefaultShapesComposition | src/renderer/config/sceneConfig.js:35-132 | the default scene has four planes and one each of sphere, box, torus and cylinder, all with shading-model code 0 |
| SceneConfig.CreateDefaultAreaLights | src/renderer/config/sceneConfig.js:134-151 | two default lights, below the light capacity, each with positive intensity and a non-degenerate rectangle |
| SceneConfig.CreateEnvironmentSettings | src/renderer/config/sceneConfig.js:153-157 | the sky colours are the parsed hex constants and the intensity is positive |
| Uniforms.InitializeVector4Array | src/renderer/utils/uniforms.js:9-10 | the array has the requested length and every slot holds a fresh vector (0, 0, 0, 1) |
| Uniforms.InitializeMatrix3Array | src/renderer/utils/uniforms.js:12-13 | the array has the requested length and every slot holds the identity |
| Uniforms.InitializersDefaultToShapeCapacity | src/renderer/utils/uniforms.js:9-13 | called without a count, both initialisers allocate the shape capacity |
| Uniforms.InitialShapeUniforms | src/renderer/ThreeRayTracer.js:92-97 | the start-up shape buffers hold exactly the shape capacity; every vector slot of all four arrays is (0, 0, 0, 1), every rotation the identity, and the count is the scene's shape count |
| Uniforms.InitialLightUniforms | src/renderer/ThreeRayTracer.js:98-104 | the start-up light buffers hold exactly the light capacity; every slot of all four arrays is (0, 0, 0, 1), and the count is the scene's light count |
| Uniforms.UpdateShapeUniforms | src/renderer/utils/uniforms.js:15-53 | from sized buffers, the result marshals the list: the count is min(length, 8); each slot below the count packs the shape at that index; every slot from the count to the capacity is a sentinel |
| Uniforms.UpdateAreaLightUniforms | src/renderer/utils/uniforms.js:55-82 | the same for lights with capacity 3, the packed normal normalised, and sentinels parked above the scene with a downward normal |
| Uniforms.MarshalledShapesAreDetermined | src/renderer/utils/uniforms.js:15-53 | the marshalled buffers depend on the list alone: two buffers that marshal the same list are equal, so re-marshalling is idempotent |
| Uniforms.MarshalledLightsAreDetermined | src/renderer/utils/uniforms.js:55-82 | the marshalled light buffers depend on the list alone |
| Uniforms.ShapesPastCapacityAreIgnored | src/renderer/utils/uniforms.js:23-52 | a buffer marshals a list iff it marshals the list cut to its first 8 shapes |
| Uniforms.LightsPastCapacityAreIgnored | src/renderer/utils/uniforms.js:61-81 | a buffer marshals a light list iff it marshals the list cut to its first 3 lights |
| Uniforms.ShapeSentinelsAreIsolated | src/renderer/utils/uniforms.js:44-50 | unused shape slots sit at or below y = -50 at pairwise distinct depths and carry no colour |
| Uniforms.DefaultSceneNeedsNoFallback | src/renderer/utils/uniforms.js:23-31 | marshalling the default scene fills all 8 slots, and every slot's type code decodes back to that shape's own kind |
| PerformanceController.Degrade | src/renderer/ThreeRayTracer.js:147-174 | degrading reports success exactly when it changed the settings |
| PerformanceController.Improve | src/renderer/ThreeRayTracer.js:176-203 | improving reports success exactly when it changed the settings |
| PerformanceController.DegradeFollowsLadder | src/renderer/ThreeRayTracer.js:147-174 | degrading fails iff every knob is at its floor; otherwise it lowers only the first degradable knob in ladder order, by one step clamped at its floor; no knob rises |
| PerformanceController.ImproveFollowsLadder | src/renderer/ThreeRayTracer.js:176-203 | improving fails iff every knob is at its threshold; otherwise it raises only the first improvable knob, by one step clamped at its ceiling; no knob falls |
| PerformanceController.LaddersKeepRanges | src/renderer/ThreeRayTracer.js:147-203 | both ladders map the controller's box (scale 55-100, steps 80-200) into itself, and the panel's ranges into themselves |
| PerformanceController.SuccessfulStepChangesExactlyOneKnob | src/renderer/ThreeRayTracer.js:147-203 | a successful step changes exactly one knob, the first one its ladder can move |
| PerformanceController.DegradeShortensLadder | src/renderer/ThreeRayTracer.js:147-174 | degrading fails iff the remaining degrade distance is 0, and each success shortens it by exactly one |
| PerformanceController.ImproveShortensLadder | src/renderer/ThreeRayTracer.js:176-203 | improving fails iff the remaining improve distance is 0, and each success shortens it by exactly one |
| PerformanceController.DegradeRunDistance | src/renderer/ThreeRayTracer.js:147-174 | after n degrade calls the remaining distance is max(distance - n, 0) |
| PerformanceController.ImproveRunDistance | src/renderer/ThreeRayTracer.js:176-203 | after n improve calls the remaining distance is max(distance - n, 0) |
| PerformanceController.DegradeRunStaysInRange | src/renderer/ThreeRayTracer.js:147-174 | any number of degrade calls keeps the controller's box and the panel's ranges |
| PerformanceController.ImproveRunStaysInRange | src/renderer/ThreeRayTracer.js:176-203 | any number of improve calls keeps the controller's box and the panel's ranges |
| PerformanceController.RepeatedDegradeTerminates | src/renderer/ThreeRayTracer.js:147-174 | the (n+1)-th consecutive degrade succeeds iff n is below the degrade distance, so the ladder terminates |
| PerformanceController.RepeatedImproveTerminates | src/renderer/ThreeRayTracer.js:176-203 | the (n+1)-th consecutive improve succeeds iff n is below the improve distance, so the ladder terminates |
| PerformanceController.DefaultDegradesToLowestTierInTenSteps | src/renderer/ThreeRayTracer.js:147-174 | from the defaults, exactly ten degrade steps reach scale 0.55, 80 steps, occlusion off and no denoise, after which degrading stops |
| PerformanceController.RecoveryFromLowestTierTakesThirtySteps | src/renderer/ThreeRayTracer.js:176-203 | from the lowest tier, the first 30 improve steps all succeed and the 31st fails, leaving full resolution, occlusion on and full denoise |
| PerformanceController.ImprovedToExhaustion | src/renderer/ThreeRayTracer.js:176-203 | within the panel's ranges (which include manual settings below the controller's box), once improving is exhausted, the scale is 1.0, occlusion is on and denoise is 1.0 |
| PerformanceController.ApplyPerformanceSettings | src/renderer/ThreeRayTracer.js:131-144 | the render resolution is the window scaled by the resolution scale; the step budget is copied; occlusion is a 0/1 gate matching the flag; denoise is the fraction of the hundredths |
| PerformanceController.UniformsDetermineSettings | src/renderer/ThreeRayTracer.js:131-144 | on a non-empty window the settings read back from the uniforms are the settings: distinct settings never reach the shading program as the same uniforms |
| PerformanceController.ResolutionWithinWindow | src/renderer/ThreeRayTracer.js:131-138 | in the panel's range, the render resolution is, on both axes, at most the window and at least 30% of it (55% inside the controller's box); denoise lies in [0, 1] |
| FrameDriver.Start | src/renderer/ThreeRayTracer.js:52-55 | at start the settings are the defaults with uniforms in sync, no frames counted, the estimate at 60 fps, and both the sample clock and the adjustment clock at `now`, so the cooldown has not elapsed |
| FrameDriver.AutoAdjustPerformance | src/renderer/ThreeRayTracer.js:205-219 | no change during the cooldown or inside [54, 66]; below the band the settings become the degrade step's, above it the improve step's; a change happens iff that step succeeds, and it restarts the cooldown and re-syncs the uniforms |
| FrameDriver.MeasuredFps | src/renderer/ThreeRayTracer.js:231 | the measured rate is non-negative and is in frames per second: the rate times the window length in milliseconds is 1000 times the frame count |
| FrameDriver.Smooth | src/renderer/ThreeRayTracer.js:231-232 | the new estimate lies between the old estimate and the measurement and keeps 60% of their gap |
| FrameDriver.Tick | src/renderer/ThreeRayTracer.js:227-239 | before 500 ms only the frame counter moves; at a sample the counter resets, the sample clock restarts, and the estimate becomes the smoothed blend of the old estimate and the rate measured over the window, between the two; if the cooldown has elapsed, a smoothed rate below 54 applies the degrade step and one above 66 the improve step; settings change only at a sample after the cooldown, never inside the dead band; a frame whose settings stay put leaves the adjustment clock and the uniforms untouched, so a failed or skipped step does not restart the cooldown; uniforms stay in sync |
| FrameDriver.TriggerPerformanceUpdate | src/renderer/ThreeRayTracer.js:273-276 | a manual edit is applied with uniforms in sync; the adjustment clock is set to `now`, restarting the cooldown; the frame clock is left alone |
| FrameDriver.ManualChangeHoldsOffController | src/renderer/ThreeRayTracer.js:206-208 | within 1.5 s of a manual edit, neither the controller nor a frame tick changes the edited settings, whatever the frame rate |
| FrameDriver.FramesPreserveInvariants | src/renderer/ThreeRayTracer.js:227-239 | over any sequence of frames the knobs stay in the controller's box and in the panel's ranges, and the uniforms stay in sync |
| FrameDriver.DeadBandIsStable | src/renderer/ThreeRayTracer.js:209-214 | any number of controller calls with rates inside [54, 66] leaves the whole state unchanged |
| FrameDriver.SustainedHighRateClimbsLadder | src/renderer/ThreeRayTracer.js:205-219 | with every rate above 66 and samples spaced past the cooldown, the settings follow the improve ladder step for step |

## Left out

- The shading program, the render loop's drawing calls, the canvas and DOM, the resize handler, the editing panel's widgets and the effect's teardown. These are I/O around the modelled state.
- The three.js numerics are parameters (`ThreeOps`) and are not interpreted: Euler-to-matrix conversion, quaternion-based `rotationFromNormal`, `normalize` and hex colour parsing.
- Floating point. Knobs are exact hundredths, but the source steps them in IEEE doubles. On the denoise legs, and on the scale's degrade leg, the two can differ by one step:
  - Raising the denoise strength from 0 by `0.1` ten times gives 0.9999999999999999, which is still below 1, so it takes an 11th step.
  - Lowering it from 1 by `0.1` ten times leaves about 1.4e-16, which is still above 0, so that leg also takes 11 steps.
  - From most other starting values of whole tenths, the rounding residue also costs one extra step.
  - The scale's improve leg (steps of 0.05, clamped at 1) takes the same number of steps as in the model.
  - The scale's degrade leg (steps of 0.1, clamped at 0.55) matches the model from the default 1.0. But improving from 0.55 accumulates a residue: two improve steps give 0.6500000000000001, not 0.65. Degrading from there takes two steps instead of one, because 0.5500000000000002 is still above 0.55. The same extra step follows 4, 6 or 8 improve steps from 0.55.
  - The march-step legs take the same number of steps as in the model.
- RecoveryFromLowestTierTakesThirtySteps: counts steps on exact hundredths: 30 (1 + 10 + 10 + 9). In the source's doubles the denoise leg takes 11 steps, so recovery takes 31.
- DegradeShortensLadder: the distance counts the denoise and scale legs in exact hundredths. In doubles each of those legs can take one step more: the denoise leg takes 11 steps instead of 10 from 1, and the scale leg takes 2 instead of 1 from the 0.6500000000000001 that two improve steps leave. In that state, the model's next degrade moves the march steps, while the source's moves the scale again.
- DegradeRunDistance: inherits DegradeShortensLadder's possible one-step differences on the denoise and scale legs in doubles.
- RepeatedDegradeTerminates: inherits DegradeShortensLadder's possible one-step differences on the denoise and scale legs in doubles.
- ImproveShortensLadder: the distance counts the denoise leg in exact hundredths. In doubles that leg can take one step more, for example 11 instead of 10 from 0.
- ImproveRunDistance: inherits ImproveShortensLadder's possible one-step difference on the denoise leg in doubles.
- RepeatedImproveTerminates: inherits ImproveShortensLadder's possible one-step difference on the denoise leg in doubles.
- Table lookups use the table's own keys only. In JavaScript, a shape whose kind is an inherited object property name (for example `constructor`) would not fall back to 0.
- `Math.floor` on the march-step budget is the identity here, because steps are integers; the panel's step for this knob is 1.
- The two `performance.now()` reads at start-up are one `now` in `Start`.
- The sky, camera and time uniforms are copied without any logic, so they have no model.
