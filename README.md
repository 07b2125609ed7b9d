# Physics demos: the per-frame rules, modelled and proved

The repository is a set of browser physics demos built on three.js and a 2D
canvas. Under the scene building, the DOM controls and the drawing, each
demo has a small update rule: a handful of variables (or an array) that a
frame, a button or a slider changes. This project models those rules in
Dafny over exact `real` arithmetic and proves the facts the code promises.

- `Cyclotron`: the cyclotron of `public/scene4.js`. It covers the quadrant
  classifier, the edge-triggered gap-crossing detector with its cooldown and
  speed limit, and the energy impulse that adds q V to the kinetic energy
  while keeping the direction. It also covers the magnetic half steps with
  renormalisation to the stored speed, the rim policy (extract, reflect or
  halt, with extraction a latch), the adaptive trail buffer, reset and the
  status line.
- `EarlyCyclotron`: the earlier cyclotron of `src/scene4.js`. It has a
  component-wise Lorentz force, an electric kick gated by a timer, and
  semi-implicit Euler steps.
- `HallEffect`: the Hall-effect class of `src/Nmain.js` and its copy in
  `public/nmain.js`. It covers the field box, the Hall voltage
  U_H = RH (I B) / d, the arrows and the charge indicators, the per-electron
  drift, clamp and wrap, the pause button, reset, and the tutorial's
  counter and its effect on the arrows (recomputed on every panel, all
  shown at scale 1.5 on the Hall-voltage panel).
- `WienFilter`: the Wien velocity filter of
  `public/wienscher_geschwindigkeitsfilter.js`. It covers the acceleration
  from E plus v x B, the balance velocity E/B, the out-of-bounds reset, the
  plate polarity, and the slider and number-field handlers.
- `MassSpectrometer`: the canvas mass spectrometer of
  `src/Massenspektrometer.js`. It covers the radius formula with the unit
  conversion, and the ion and particle lists: append, the in-place angle
  update, the order-preserving detector filter, and the radius recompute.
- `TwoBody`: the gravity scene of `public/scene3.js`. It covers the
  equal-and-opposite accelerations and the collision rule, whose
  asymmetries come from in-place mutation. The two bounded trails use the
  shared `Trails` module.
- `Bounce`: the bouncing spheres of `public/scene2.js`.
- `Vectors`: shared by all scenes. It holds three.js `Vector3` arithmetic,
  with `length`, `normalize` and `reflect` as three.js defines them. It also
  holds `MathLib`, the library functions `Math.sqrt`, `Math.atan2` and
  `Math.cos`. These are passed in as values. Their only assumption,
  `Lawful`, is the square-root law plus "a non-zero vector has a positive
  length".
- `Trails`: the push / shift-while-longer / pad-to-two trail buffer,
  shared by `TwoBody` and `EarlyCyclotron`; `Cyclotron` uses its
  `KeepNewest` for its own trail.
- `Wrappers`: an `Option` type for missing page elements and cancelled
  prompts.

Where the source changes state in place, the model is a class with the same
fields. Its methods do what the source does step by step, loops included,
and each method is proved equal to a function on a state value. The lemmas
reason about those functions. Inputs from outside become parameters:
`Math.random` draws, parsed slider values, and the presence of page
elements.

## Model

| member | source | states |
|---|---|---|
| Bounce.FallHorizontal | public/scene2.js:94-96 | a frame keeps v_x and v_z; x and z move by v dt |
| Bounce.FallVertical | public/scene2.js:94-103 | v_y drops by 9.81 dt and y moves with the new v_y; contact happens iff the moved centre is below 15; on contact y is put at exactly 15 and v_y becomes -0.8 times the lowered v_y |
| Bounce.Fall | public/scene2.js:94-103 | one sphere's frame: gravity into the velocity, the velocity into the position, then the floor reset; its properties are FallHorizontal, FallVertical, StaysAboveFloor and BounceReverses |
| Bounce.Contact | public/scene2.js:94-98 | the floor test after the Euler move: the bottom of the moved sphere is below the floor; FallVertical states it as y + (v_y - 9.81 dt) dt < 15, and BounceReverses and StaysAboveFloor use it |
| Bounce.StaysAboveFloor | public/scene2.js:98-100 | after every frame the centre is at height >= floorLevel + radius = 15 |
| Bounce.BounceReverses | public/scene2.js:98-102 | a sphere that starts on or above the floor and touches it was falling, and leaves the frame rising, no faster than it fell |
| Bounce.HorizontalUnchanged | public/scene2.js:94-107 | any number of frames keeps the horizontal velocity exactly |
| Bounce.BounceSim.constructor | public/scene2.js:51-52 | both spheres at rest at (-20, 50, 0) and (20, 80, 0), above the floor, animation off |
| Bounce.BounceSim.Animate | public/scene2.js:87-111 | a stopped scene changes nothing; a running one moves each sphere by the same one-sphere rule, independently, and both end above the floor |
| Bounce.BounceSim.ToggleAnimation | public/scene2.js:75-84 | a stopped scene starts and runs its first frame at once; a running one stops and keeps both spheres |
| Trails.ShiftWhileLonger | public/scene3.js:100-105 | the shift loop leaves exactly the newest n entries |
| Trails.KeepNewest | public/scene3.js:100-105 | the trail trimmed to its newest n entries; ShiftWhileLonger is proved equal to it and KeepNewestBounded and PushThenKeep state what it keeps |
| Trails.KeepNewestBounded | public/scene3.js:99-105 | at most n entries and no more than before survive; they are a suffix of the trail; nothing is dropped iff there was room; exactly n survive when there were at least n |
| Trails.PushThenKeep | public/scene3.js:96-105 | after a push and trim the pushed point is last; with room the trail just grows by it; otherwise the oldest entries are dropped first |
| Trails.PadToTwo | public/scene3.js:107-116 | a one-point trail gets a second point 0.1 along x from its first; a longer trail is kept; RecordedBounds uses it for the lower bound of 2 |
| Trails.Recorded | public/scene3.js:94-117 | the trail after a recording frame: push, trim to the newest cap points, then pad to two; Record computes it and RecordedBounds bounds its length by 2 and cap |
| Trails.Record | public/scene3.js:94-118 | the push / shift loop / pad-to-two sequence of one recording frame, computed in place, equals the recording function |
| Trails.RecordedBounds | public/scene3.js:107-117 | a recording frame with a cap of at least 2 leaves 2 to cap points: the newest cap points with the new one last, or, when only the new point is left, it and its (0.1, 0, 0) offset copy |
| Trails.RecordEveryNth | public/scene3.js:90-121 | the trail after one frame: recorded when the new frame number is a multiple of n, otherwise kept; RecordEveryNthBounded states its bounds |
| Trails.RecordEveryNthBounded | src/scene4.js:150-166 | a trail of 2 to cap points keeps 2 to cap points; on a recording frame the current position is last; on other frames the trail is unchanged |
| TwoBody.DistancePositive | public/scene3.js:124-125 | two distinct sphere positions have a positive distance |
| TwoBody.Distance | public/scene3.js:123-125 | the length of p1 - p2; DistancePositive, AccelerationScales and CollisionSeparates state its properties |
| TwoBody.GravityAcceleration | public/scene3.js:123-136 | acceleration(): force magnitude G m1 m2 / d^2 along the unit vector r / d, negated and divided by m1 for sphere 1, divided by m2 for sphere 2; AccelerationForm and GravityLaw state its closed form |
| TwoBody.AccelerationForm | public/scene3.js:123-135 | a1 and a2 are G m / d^3 times the vector toward the other sphere, and m1 a1 + m2 a2 = 0 |
| TwoBody.ForceMagnitude | public/scene3.js:128 | G m1 m2 / d^2, the size of the force; AccelerationScales and AccelerationForm turn it into G m / d^3 times the vector between the spheres |
| TwoBody.Pull | public/scene3.js:123-135 | G m / d^3, the factor turning the vector between the spheres into an acceleration; AccelerationForm and PullPositive state it |
| TwoBody.AccelerationScales | public/scene3.js:126-133 | both accelerations are multiples of p1 - p2, with opposite-signed factors |
| TwoBody.ScaledForce | public/scene3.js:128-133 | force = (G m1 m2 / d^2) r/d; scaling it by -1/m1 and by 1/m2 gives the two pulls along r |
| TwoBody.GravityLaw | public/scene3.js:123-135 | for separate spheres d > 0 and the pull factor is positive, so a1 points from sphere 1 toward sphere 2 and a2 the other way |
| TwoBody.PullPositive | public/scene3.js:128 | the pull factor G m / d^3 is positive for a positive mass and distance |
| TwoBody.CollisionRule | public/scene3.js:138-147 | v1' = 0.5 v1 + 0.05 v2 and v2' = 0.5 v2 + 0.1 v1; sphere 1 moves by +0.1 d-hat and sphere 2 by -0.01 d-hat; the separation grows by 0.11 d-hat |
| TwoBody.Collide | public/scene3.js:138-148 | handleCollision with its in-place updates in order, including the twice-scaled direction; CollisionRule, CollisionSeparates and CollisionMomentum state its effect |
| TwoBody.CollisionSeparates | public/scene3.js:145-147 | a collision pushes two distinct spheres exactly 0.11 further apart |
| TwoBody.SeparationForm | public/scene3.js:145-147 | after a collision the separation vector is (1 + 0.11/d) times the old one |
| TwoBody.CollisionMomentum | public/scene3.js:139-143 | a collision does not conserve momentum: with equal masses m (v1 + v2) becomes m (0.6 v1 + 0.55 v2) |
| TwoBody.FarStepKeepsMomentum | public/scene3.js:150-162 | a step without collision keeps the total momentum m1 v1 + m2 v2 |
| TwoBody.Step | public/scene3.js:150-162 | applyForce: semi-implicit Euler for both spheres, then a collision when the distance measured before the move is below 30; NearStep and FarStepKeepsMomentum state its effect |
| TwoBody.NearStep | public/scene3.js:150-162 | a step from closer than 30 ends with v1' = 0.5 u1 + 0.05 u2 and v2' = 0.5 u2 + 0.1 u1 for the Euler-updated velocities u, and, when the move left the spheres apart, exactly 0.11 further apart than the move alone would have |
| TwoBody.TwoBodySim.constructor | public/scene3.js:33-45 | the start bodies (velocities (0, 20, ±20)) and two-point trails [p, p + (0.1, 0, 0)] for each sphere |
| TwoBody.TwoBodySim.HandleCollision | public/scene3.js:138-148 | the in-place updates, including the twice-scaled direction, give the collision function |
| TwoBody.TwoBodySim.ApplyForce | public/scene3.js:150-162 | the in-place step equals the step function; trails and counters unchanged |
| TwoBody.TwoBodySim.UpdateTrails | public/scene3.js:90-121 | the frame counter grows by one and each trail follows the every-second-frame rule with cap 10000, keeping 2 to 10000 points |
| TwoBody.TwoBodySim.Animate | public/scene3.js:164-170 | a stopped scene changes nothing; a running one takes one step and updates both trails |
| TwoBody.TwoBodySim.ToggleAnimation | public/scene3.js:237-246 | a stopped scene starts and runs its first frame at once: one step, the frame counter up by one, and both trails by the every-second-frame rule; a running one stops unchanged |
| WienFilter.AccelerationLaw | public/wienscher_geschwindigkeitsfilter.js:288-306 | a = (2 q B v_y, 2 q (E - B v_x) - [2 g], 0): the z-part is always 0 and the magnetic part is perpendicular to v |
| WienFilter.ElectricAcceleration | public/wienscher_geschwindigkeitsfilter.js:294 | the electric part 2 q E along y; AccelerationLaw writes out the sum |
| WienFilter.MagneticAcceleration | public/wienscher_geschwindigkeitsfilter.js:297-299 | the magnetic part 2 q (v x B) with B along z; AccelerationLaw states it is perpendicular to v |
| WienFilter.Acceleration | public/wienscher_geschwindigkeitsfilter.js:288-314 | calculateAcceleration: 2 q (E y-hat + v x B z-hat), minus 2 g y-hat with gravity on; AccelerationLaw writes it out and Balance characterises its zeros |
| WienFilter.Balance | public/wienscher_geschwindigkeitsfilter.js:293-301 | without gravity and with B ≠ 0, v = (E/B, 0, 0) gives zero acceleration; for q ≠ 0, zero acceleration forces v_y = 0 and v_x = E/B |
| WienFilter.IdealVelocityLaw | public/wienscher_geschwindigkeitsfilter.js:280 | the displayed ideal speed is non-negative, equals |E| / |B|, and is ±E/B |
| WienFilter.IdealVelocity | public/wienscher_geschwindigkeitsfilter.js:280 | the ideal speed shown on the page, the absolute value of E / B; IdealVelocityLaw states it is |E| / |B| and non-negative |
| WienFilter.Reset | public/wienscher_geschwindigkeitsfilter.js:239-243 | the particle goes back to (-8, 0, 0) moving at (particleSpeed, 0, 0) |
| WienFilter.InBounds | public/wienscher_geschwindigkeitsfilter.js:526-529 | the particle is kept when |x| <= 8, |y| <= 25 and |z| <= 25, tests inclusive; FrameStaysInBounds states that every frame ends in bounds and resets exactly when the move leaves them |
| WienFilter.Move | public/wienscher_geschwindigkeitsfilter.js:512-518 | the Euler step of animate: v' = v + a dt, then x' = x + v' dt; BalancedFliesStraight states it at the balance velocity |
| WienFilter.Frame | public/wienscher_geschwindigkeitsfilter.js:512-531 | one frame: the step, then the reset when the particle leaves the box; FrameStaysInBounds states its bounds |
| WienFilter.FrameStaysInBounds | public/wienscher_geschwindigkeitsfilter.js:512-531 | after every frame |x| <= 8, |y| <= 25, |z| <= 25; the frame is either the Euler step or a reset, and it resets exactly when the step leaves the box |
| WienFilter.BalancedFliesStraight | public/wienscher_geschwindigkeitsfilter.js:512-518 | at the balance velocity the particle keeps its velocity and moves straight by v dt |
| WienFilter.Plates | public/wienscher_geschwindigkeitsfilter.js:114-134 | the plates always sit at opposite y = ±5; E >= 0 puts the positive plate at -5 with arrows up, and E < 0 swaps them |
| WienFilter.SliderAfter | public/wienscher_geschwindigkeitsfilter.js:421-426 | a typed value moves the slider iff it lies in the slider's range |
| WienFilter.SetInput | public/wienscher_geschwindigkeitsfilter.js:414-430 | the input's parameter becomes the new value and the others are kept; Slide and Type state their new parameters with it |
| WienFilter.SliderStaysInRange | public/wienscher_geschwindigkeitsfilter.js:438-443 | whatever is typed, a slider inside its range stays inside it |
| WienFilter.Range | public/wienscher_geschwindigkeitsfilter.js:424 | each slider range (E and B in [-15, 15], speed in [0.5, 15], charge in [-3, 3]) is non-empty |
| WienFilter.WienFilterSim.constructor | public/wienscher_geschwindigkeitsfilter.js:573-579 | the default parameters, the plates for E = 5, the particle at the gun, every slider at its default inside its range |
| WienFilter.WienFilterSim.ResetParticle | public/wienscher_geschwindigkeitsfilter.js:239-243 | the particle becomes the reset state and nothing else changes |
| WienFilter.WienFilterSim.UpdateFieldPolarities | public/wienscher_geschwindigkeitsfilter.js:103-138 | the plates become the polarity of the current E; the particle is untouched |
| WienFilter.WienFilterSim.Animate | public/wienscher_geschwindigkeitsfilter.js:506-531 | a stopped filter changes nothing; a running one takes one frame and ends inside the box |
| WienFilter.WienFilterSim.Slide | public/wienscher_geschwindigkeitsfilter.js:414-419 | moving a slider sets its parameter and the slider; the plates follow E; the particle is reset |
| WienFilter.WienFilterSim.Type | public/wienscher_geschwindigkeitsfilter.js:421-430 | typing sets the parameter; the slider moves only for an in-range value; the plates follow E; the particle is reset; every slider stays in range |
| WienFilter.WienFilterSim.SetGravity | public/wienscher_geschwindigkeitsfilter.js:480-482 | the gravity box sets useGravity only; the particle is not reset |
| WienFilter.WienFilterSim.ToggleAnimation | public/wienscher_geschwindigkeitsfilter.js:316-324 | a stopped filter starts and takes its first frame at once; a running one stops where it is |
| MassSpectrometer.PaletteColor | src/Massenspektrometer.js:76-82 | every colour comes from the fixed 8-colour palette |
| MassSpectrometer.CalculateRadius | src/Massenspektrometer.js:85-93 | calculateRadius: u to kg, v = sqrt(2 V q / m), r = m v / (q B), times the display scale; RadiusSquared, RadiusPositive, RadiusGrowsWithMass and RadiusShrinksWithField state its properties |
| MassSpectrometer.RadiusSquared | src/Massenspektrometer.js:85-93 | for m > 0 and V >= 0, r^2 = 2 (m u) V / (q B^2) times the squared display scale 10^12, with m u the mass in kg |
| MassSpectrometer.RadiusPositive | src/Massenspektrometer.js:85-93 | a positive mass, voltage and field give a positive radius |
| MassSpectrometer.RadiusGrowsWithMass | src/Massenspektrometer.js:85-93 | a heavier ion has a strictly larger radius |
| MassSpectrometer.RadiusShrinksWithField | src/Massenspektrometer.js:85-93 | a stronger field gives a strictly smaller radius |
| MassSpectrometer.NewIon | src/Massenspektrometer.js:66-73 | an ion entry keeps the given name and mass and takes a palette colour |
| MassSpectrometer.SeedIons | src/Massenspektrometer.js:33-39 | the constructor's seven ions all have positive masses and palette colours |
| MassSpectrometer.SeedIonsAppended | src/Massenspektrometer.js:33-39 | the seven ions are H+ 1, He+ 4, Li+ 7, C+ 12, O+ 16, Na+ 23, Cl+ 35.5 in that order, one draw each |
| MassSpectrometer.NewParticle | src/Massenspektrometer.js:96-113 | a new particle keeps the ion's mass, name and colour, has the radius of its mass and starts at angle 0 |
| MassSpectrometer.SourceOnOrbit | src/Massenspektrometer.js:96-113 | the circle's centre is (50, h/2 - r), so the source point (50, h/2) lies on it |
| MassSpectrometer.AngularSpeed | src/Massenspektrometer.js:278 | the angle a particle of positive mass turns per frame is positive |
| MassSpectrometer.Advance | src/Massenspektrometer.js:276-279 | update's first pass on a particle: the angle grows by 0.02 / sqrt(mass); AdvanceTurnsForwards states the angle grows and nothing else changes |
| MassSpectrometer.ParticleX | src/Massenspektrometer.js:282 | the x coordinate of a particle on its circle, centreX + r cos(angle), recomputed by the filter at line 291 |
| MassSpectrometer.AdvanceTurnsForwards | src/Massenspektrometer.js:276-280 | the angle strictly grows and no other field changes |
| MassSpectrometer.AdvanceAll | src/Massenspektrometer.js:276-287 | the first pass keeps the count and the positive masses |
| MassSpectrometer.KeepUndetected | src/Massenspektrometer.js:290-293 | the filter never lengthens the list |
| MassSpectrometer.Undetected | src/Massenspektrometer.js:290-292 | a particle is kept while x <= width - 40, inclusive, so one at exactly width - 40 stays; KeepUndetectedMembers states the filter keeps exactly these |
| MassSpectrometer.KeepUndetectedMembers | src/Massenspektrometer.js:290-293 | a particle survives iff it was there and its x is <= width - 40 |
| MassSpectrometer.KeepUndetectedKeepsOrder | src/Massenspektrometer.js:290-293 | the filter of a concatenation is the concatenation of the filters, so the original order is kept |
| MassSpectrometer.KeepUndetectedCons | src/Massenspektrometer.js:290-293 | the filter keeps or drops the first particle by its own test and filters the rest |
| MassSpectrometer.KeepUndetectedSingle | src/Massenspektrometer.js:291-292 | one particle is kept exactly when it is short of the detector |
| MassSpectrometer.AfterUpdate | src/Massenspektrometer.js:275-294 | update's effect on the particle list: every particle advanced, then the order-preserving detector filter; Update is proved equal to it |
| MassSpectrometer.Recomputed | src/Massenspektrometer.js:456-460 | recomputing keeps the count and the positive masses |
| MassSpectrometer.RecomputedLaw | src/Massenspektrometer.js:456-460 | each radius becomes calculateRadius of its mass and every other field is kept; recomputing twice changes nothing more |
| MassSpectrometer.CustomName | src/Massenspektrometer.js:418 | the typed symbol is the name; an empty answer gives "Ion-" followed by the mass |
| MassSpectrometer.MassSpectrometerSim.constructor | src/Massenspektrometer.js:26-45 | B = 5, V = 5000, no particles, the seven standard ions, animation off |
| MassSpectrometer.MassSpectrometerSim.AddIon | src/Massenspektrometer.js:66-73 | exactly one entry is appended; nothing else changes |
| MassSpectrometer.MassSpectrometerSim.AddCustomIon | src/Massenspektrometer.js:413-423 | an ion is appended only for a parsed mass > 0; a cancelled or bad answer changes nothing |
| MassSpectrometer.MassSpectrometerSim.CreateParticle | src/Massenspektrometer.js:96-113 | the chosen ion's particle is appended; nothing else changes |
| MassSpectrometer.MassSpectrometerSim.Update | src/Massenspektrometer.js:275-294 | the in-place angle loop and the filter give all particles advanced, in order, minus those past the detector |
| MassSpectrometer.MassSpectrometerSim.RecalculateParticleRadii | src/Massenspektrometer.js:456-460 | the in-place loop sets each radius from the current B and V and changes nothing else |
| MassSpectrometer.MassSpectrometerSim.SetMagneticField | src/Massenspektrometer.js:377-393 | the new B is stored and the radii are recomputed for it |
| MassSpectrometer.MassSpectrometerSim.SetVoltage | src/Massenspektrometer.js:395-411 | the new V is stored and the radii are recomputed for it |
| MassSpectrometer.MassSpectrometerSim.Reset | src/Massenspektrometer.js:425-428 | all particles are removed and the ions kept |
| MassSpectrometer.MassSpectrometerSim.StartAnimation | src/Massenspektrometer.js:297-310 | when already animating nothing changes; otherwise the flag is set and the first update runs at once |
| MassSpectrometer.MassSpectrometerSim.AnimationFrame | src/Massenspektrometer.js:301-307 | a scheduled frame runs one update while the animation is on, and nothing once it is off |
| MassSpectrometer.MassSpectrometerSim.StopAnimation | src/Massenspektrometer.js:313-319 | the flag is cleared and the lists are kept |
| Cyclotron.Quadrant | public/scene4.js:313-320 | (0, 0) maps to 0 and every other point to exactly one of 1-4; ties: z = 0, x > 0 gives 1; x = 0, z > 0 gives 2; z = 0, x < 0 gives 3; x = 0, z < 0 gives 4 |
| Cyclotron.QuadrantRotation | public/scene4.js:317-320 | a quarter turn counterclockwise moves every point to the next quadrant, so the tie-breaking is consistent |
| Cyclotron.LorentzForce | public/scene4.js:290-300 | F = q (v x B) with B along y has no y-part, is (-q B v_z, 0, q B v_x), and is perpendicular to v |
| Cyclotron.HalfKickForm | public/scene4.js:495-499 | a magnetic half step maps v to (v_x - k v_z, v_y, v_z + k v_x) with k = q B dt / (2 m): v_y is kept |
| Cyclotron.KickRate | public/scene4.js:495-499 | the rotation rate k = q B (dt / 2) / m of one half step; HalfKickForm and HalfKickLengthSq state the step in terms of it |
| Cyclotron.HalfKickLengthSq | public/scene4.js:495-499 | a half step stretches the xz-part of the squared speed by 1 + k^2 |
| Cyclotron.HalfKickZero | public/scene4.js:495-510 | a half step maps only the zero velocity to zero |
| Cyclotron.HalfKick | public/scene4.js:495-499 | one half step of the magnetic acceleration, v + (F / m) (dt / 2); HalfKickForm, HalfKickLengthSq and HalfKickZero state its properties |
| Cyclotron.Classify | public/scene4.js:323-363 | the detector's outcome: first sample, no crossing, cooling down, too fast or impulse, in the source's order of tests; CrossingDetection and Suppression characterise it |
| Cyclotron.AfterGap | public/scene4.js:310-418 | applyElectricField's new state for each outcome; FirstSampleOnlyRecords, NoImpulseKeepsVelocity, ImpulseBookkeeping and ImpulseEnergy state it |
| Cyclotron.FirstSampleOnlyRecords | public/scene4.js:323-326 | with previousQuadrant = 0 the detector only records the quadrant and does not fire |
| Cyclotron.CrossingDetection | public/scene4.js:328-345 | each later call stores the position; a crossing is reported iff the quadrant moved 1 to 2 or 3 to 4, or x changed sign while z ≠ 0 |
| Cyclotron.XSignChanged | public/scene4.js:337-339 | x went from >= 0 to < 0 or from <= 0 to > 0, so leaving 0 counts and staying at 0 does not; CrossingDetection uses it |
| Cyclotron.CrossedGap | public/scene4.js:331-342 | a 1 to 2 or 3 to 4 quadrant move, or a sign change of x while z is not 0; CrossingDetection states that the detector reports exactly this |
| Cyclotron.NoImpulseKeepsVelocity | public/scene4.js:348-363 | without an impulse velocity, crossing time, position and time are kept; a non-crossing stores the quadrant; a crossing suppressed by cooldown or speed keeps the old quadrant |
| Cyclotron.Suppression | public/scene4.js:354-363 | a crossing is held back by the cooldown iff time - lastGapCrossingTime < 0.2, and fires iff the cooldown has passed and the speed is <= 200 |
| Cyclotron.ImpulseBookkeeping | public/scene4.js:384-385 | a firing crossing sets lastGapCrossingTime := time and previousQuadrant := current, and stores the position |
| Cyclotron.ImpulseEnergy | public/scene4.js:396-409 | a firing crossing raises the kinetic energy by exactly q V and keeps the direction (the new velocity is a non-negative multiple of the old); a particle at rest stays at rest |
| Cyclotron.RescaledEnergy | public/scene4.js:406-409 | rescaling a non-zero velocity to a speed with ns^2 = 2 E / m gives kinetic energy E along the old direction |
| Cyclotron.KineticEnergy | public/scene4.js:397 | 0.5 m v^2; ImpulseEnergy and RescaledEnergy state that an impulse raises it by exactly q V |
| Cyclotron.NewSpeedLaw | public/scene4.js:406 | the new speed is the non-negative root of 2 (E + q V) / m |
| Cyclotron.NewSpeed | public/scene4.js:400-406 | the speed after a gap, sqrt(2 (E + q V) / m) with E = m v^2 / 2; NewSpeedLaw and ImpulseEnergy state that the energy rises by exactly q V |
| Cyclotron.AfterRim | public/scene4.js:436-480 | the rim check for the cases that go on to forces: latch extraction, or reflect about the rim normal; RimKeepsSpeed and RimReflection state it |
| Cyclotron.Forces | public/scene4.js:482-533 | the impulse, the two magnetic half steps around the move, renormalisation to the stored speed when nothing fired, and the clock; ForcesKeepSpeed and ForcesClock state it |
| Cyclotron.AfterFrame | public/scene4.js:420-534 | updatePhysics: an extracted particle drifts, a halt clears the animating flag, otherwise rim check then forces; ExtractedOnlyDrifts, HaltFreezes, SpeedKeptWithoutImpulse and StepClock state it |
| Cyclotron.Fires | public/scene4.js:420-488 | whether this frame reaches applyElectricField and the impulse fires: not extracted, not halted, and the detector says Impulse; FirstFrameAfterReset states no frame after a reset fires |
| Cyclotron.ExtractedOnlyDrifts | public/scene4.js:422-430 | an extracted particle only moves by v dt; velocity and time are kept |
| Cyclotron.ExtractionLatches | public/scene4.js:436-442 | inside the extraction window the latch is set, and this frame's forces are still applied |
| Cyclotron.RimReflection | public/scene4.js:451-453 | outside the window v' = v - 2 (v . n) n with a unit rim normal: the normal part is negated, the tangential part kept, the speed kept |
| Cyclotron.RadiusAtCentre | public/scene4.js:433 | the radius at the axis is 0 |
| Cyclotron.Radius | public/scene4.js:433 | the distance from the axis in the xz-plane, sqrt(x^2 + z^2); RadiusAtCentre states it is 0 at the axis |
| Cyclotron.Angle | public/scene4.js:439-440 | the angle atan2(z, x) compared with the extraction angle; ExtractionLatches uses it |
| Cyclotron.RimNormal | public/scene4.js:452 | the normalised (x, 0, z); RimReflection states it has unit length off the axis, and RimReflectKeepsLength states the reflection keeps the speed |
| Cyclotron.RimCase | public/scene4.js:436-480 | inside for r <= deesRadius; outside, halt when extraction is off, extract within 0.05 of the angle, else reflect; HaltFreezes, ExtractionLatches, RimReflection and StatusAfterStep state each case |
| Cyclotron.HaltFreezes | public/scene4.js:473-478 | with extraction disabled, reaching the rim stops the animation and changes nothing else |
| Cyclotron.SpeedKeptWithoutImpulse | public/scene4.js:484-533 | a frame without an impulse ends at the speed it started with, and time grows by exactly dt |
| Cyclotron.RimKeepsSpeed | public/scene4.js:436-480 | the rim check keeps the speed, the time and the crossing time |
| Cyclotron.ForcesKeepSpeed | public/scene4.js:512-517 | without an impulse the renormalisation restores the stored speed |
| Cyclotron.ForcesClock | public/scene4.js:533 | the force part advances time by dt and changes the crossing time only on a firing crossing past the cooldown |
| Cyclotron.RimReflectKeepsLength | public/scene4.js:452-453 | reflecting about the normalised rim vector keeps the speed, also for the zero vector |
| Cyclotron.ExtractedRun | public/scene4.js:422-430 | extraction is a latch: after n frames the particle is still extracted, with velocity and time kept, moved by n dt v |
| Cyclotron.StepClock | public/scene4.js:420-533 | time stays on extracted or halted frames and grows by dt otherwise; the crossing time moves to the current time only when the impulse fires |
| Cyclotron.CrossingTimeBehindClock | public/scene4.js:385 | the last crossing time never runs ahead of the clock, and the clock never goes back |
| Cyclotron.StatusOf | public/scene4.js:565-577 | the status is Extracted iff the latch is set, and Accelerating iff not extracted and animating |
| Cyclotron.StatusAfterStep | public/scene4.js:436-478 | halting at the rim shows Stopped; the extraction window shows Extracted, which stays |
| Cyclotron.Factor | public/scene4.js:593-594 | a sampling factor lies in [1, 5]: 1 below 2 and 5 from 5 up |
| Cyclotron.FactorMonotone | public/scene4.js:593-594 | a larger argument never gives a smaller factor |
| Cyclotron.RecordFrequency | public/scene4.js:593-595 | the record frequency is the smaller of the speed and radius factors and lies in [1, 5] |
| Cyclotron.SlowOrNearRecordsEveryFrame | public/scene4.js:593-598 | a particle slower than 30 or within 20 of the centre is recorded on every frame |
| Cyclotron.TrailCapacity | public/scene4.js:608-609 | the trail cap lies between 200 and 3000 |
| Cyclotron.TrailCapacityIs2000 | public/scene4.js:609 | the cap is max(200, min(3000, 2000)) = 2000 |
| Cyclotron.TrailAfterBounded | public/scene4.js:598-613 | a recording frame leaves 1 to 2000 points with the new one last, the oldest dropped first; other frames keep the trail |
| Cyclotron.FrequencyOneRecords | public/scene4.js:598 | at frequency 1 every frame records a point |
| Cyclotron.TrailPointOf | public/scene4.js:600-605 | the recorded point: position, time, speed and the extraction flag |
| Cyclotron.Records | public/scene4.js:585-598 | frame frameCount + 1 records when it is a multiple of the record frequency; FrequencyOneRecords and SlowOrNearRecordsEveryFrame state when it always records |
| Cyclotron.TrailAfter | public/scene4.js:585-613 | updateTrail's new trail: on a recording frame the point is pushed and the oldest points shifted off to 2000, else the trail is kept; TrailAfterBounded states it |
| Cyclotron.ParticleStart | public/scene4.js:165-181 | the particle starts at (R0, 0, 0) moving along z at max(R0 q B / m, initialSpeed) |
| Cyclotron.DefaultStart | public/scene4.js:10-21 | with the default parameters the start velocity is (0, 0, 3) |
| Cyclotron.ResetState | public/scene4.js:725-755 | reset stops the animation and clears the latch, the time, the quadrant and the crossing time; the particle is at its start |
| Cyclotron.FirstFrameAfterReset | public/scene4.js:323-326 | the first frame after a reset never fires an impulse |
| Cyclotron.CyclotronSim.constructor | public/scene4.js:154-181 | the start state of createParticle, an empty trail and frame count 0 |
| Cyclotron.CyclotronSim.ApplyElectricField | public/scene4.js:310-418 | the in-place detector and impulse equal the gap function, and the result is true exactly when the impulse fired |
| Cyclotron.CyclotronSim.UpdatePhysics | public/scene4.js:420-534 | the in-place frame equals the frame function; the trail is untouched |
| Cyclotron.CyclotronSim.ApplyForces | public/scene4.js:482-533 | the impulse, both half steps around the move, renormalisation when nothing fired, and the clock, in place, equal the force function |
| Cyclotron.CyclotronSim.LorentzForceNow | public/scene4.js:290-300 | calculateLorentzForce on the current velocity and field; LorentzForce states it is q (v x B) with no y-part and perpendicular to v |
| Cyclotron.CyclotronSim.UpdateTrail | public/scene4.js:584-618 | the frame count grows by one and the trail follows the adaptive recording rule with the cap of 2000 |
| Cyclotron.CyclotronSim.Animate | public/scene4.js:707-716 | a stopped run changes nothing; a running one takes one physics frame, then updates the trail (also on the frame that stops it) |
| Cyclotron.CyclotronSim.ResetSimulation | public/scene4.js:725-755 | the reset state, an empty trail and frame count 0 |
| Cyclotron.CyclotronSim.ToggleAnimation | public/scene4.js:785-794 | a stopped run starts and takes its first frame at once; a running one stops and keeps its state |
| EarlyCyclotron.MagneticForce | src/scene4.js:62-71 | q (v x B) with B along y is (-q B v_z, 0, q B v_x): no y-part and perpendicular to v |
| EarlyCyclotron.Angle | src/scene4.js:75 | the angle from the x-axis in the xz-plane, atan2(z, x), which InGap tests |
| EarlyCyclotron.Sign | src/scene4.js:83 | Math.sign gives 1, 0 or -1; times x it gives |x|; it is 0 iff x is 0 |
| EarlyCyclotron.ElectricForceShape | src/scene4.js:73-96 | the force has no y or z part and at most |q E| along x; a firing step gives q E sign(cos θ) (zero when cos θ = 0) and resets the timer to 0; otherwise the force is zero and the timer is kept |
| EarlyCyclotron.ElectricForce | src/scene4.js:73-96 | calculateElectricForce: the force and the new timer; ElectricForceShape states them |
| EarlyCyclotron.InGap | src/scene4.js:75-77 | the angle is within 0.1 of +pi/2 or -pi/2, strictly; ElectricForceShape uses it |
| EarlyCyclotron.Fires | src/scene4.js:79 | the impulse fires in the gap once the timer is past the interval, strictly; Quiet, NoImpulseInFirstTimeUnit and ImpulsesSpaced state how often it can fire |
| EarlyCyclotron.StepLaw | src/scene4.js:104-116 | v' = v + (F/m) dt, then x' = x + v' dt, and the timer is dt after a firing step and grows by dt otherwise |
| EarlyCyclotron.Step | src/scene4.js:104-116 | applyForce: Lorentz plus electric force, semi-implicit Euler, and the timer; StepLaw, Quiet and ImpulsesSpaced state it |
| EarlyCyclotron.QuietStepKeepsY | src/scene4.js:104-111 | a step without an impulse keeps v_y |
| EarlyCyclotron.Quiet | src/scene4.js:79-80 | while the timer cannot pass the interval, no step fires and the timer grows by exactly dt per step |
| EarlyCyclotron.NoImpulseInFirstTimeUnit | src/scene4.js:21-22 | from the initial timer 0, none of the first 63 steps (one time unit) fires |
| EarlyCyclotron.ImpulsesSpaced | src/scene4.js:79-115 | a firing step is followed by at least 62 quiet steps, so impulses are more than one time unit apart |
| EarlyCyclotron.Start | src/scene4.js:202-206 | the start position (R, 0, 0), velocity (0, 0, q B R / m) and timer 0 |
| EarlyCyclotron.InitialTrail | src/scene4.js:122-128 | createTrail's two points: the start and its (0.1, 0, 0) offset |
| EarlyCyclotron.EarlyCyclotronSim.constructor | src/scene4.js:186-212 | the start state, the two-point trail, frame count 0, animation off |
| EarlyCyclotron.EarlyCyclotronSim.CalculateElectricForce | src/scene4.js:73-96 | the returned force and the new timer are the electric-force function's; nothing else changes |
| EarlyCyclotron.EarlyCyclotronSim.ApplyForce | src/scene4.js:104-116 | the in-place update equals one step |
| EarlyCyclotron.EarlyCyclotronSim.UpdateTrail | src/scene4.js:150-166 | the frame count grows by one and the trail follows the every-second-frame rule, capped at 10000 and padded to 2 |
| EarlyCyclotron.EarlyCyclotronSim.Animate | src/scene4.js:172-180 | a stopped run changes nothing; a running one takes one step and updates the trail |
| EarlyCyclotron.EarlyCyclotronSim.ToggleAnimation | src/scene4.js:233-242 | a stopped run starts and takes its first frame at once; a running one stops and keeps its state |
| HallEffect.HallVoltageLaw | src/Nmain.js:487-492 | U_H d = RH I B; with I B > 0 the sign of U_H is the sign of RH; with no inputs on the page U_H = 1 / 1.5 |
| HallEffect.HallVoltage | src/Nmain.js:487-492 | calculateHallVoltage's value U_H = RH (I B) / d from the three inputs; HallVoltageLaw states it |
| HallEffect.CurrentValue | src/Nmain.js:530-533 | the current slider divided by 50, or 1 when the slider is missing; HallVoltageLaw and DefaultsOnFullPage use it |
| HallEffect.MagneticFieldValue | src/Nmain.js:535-538 | the field slider divided by 50, or 1 when the slider is missing; HallVoltageLaw and DefaultsOnFullPage use it |
| HallEffect.HallCoefficient | src/Nmain.js:540-543 | the material value divided by 10, or 1 when the select is missing; HallVoltageLaw states the voltage takes its sign |
| HallEffect.InFieldIsMaxNorm | src/Nmain.js:476-485 | the field test is inclusive membership of [-1.5, 1.5]^3, the closed max-norm ball of radius 1.5 |
| HallEffect.InField | src/Nmain.js:476-485 | isInMagneticField: inclusive membership of the field box; InFieldIsMaxNorm states it |
| HallEffect.ArrowScale | src/Nmain.js:516-517 | the arrow scale lies in [0.5, 2] and is |U| when |U| is in range |
| HallEffect.UpdateArrows | src/Nmain.js:501-520 | the visibility loop keeps the number of arrows |
| HallEffect.ArrowsAfterUpdate | src/Nmain.js:501-520 | an arrow is visible iff |U| > 0.1 and it is on the posZ side for RH < 0 (negZ otherwise); a visible arrow has scale clamp(|U|, 0.5, 2); a hidden one keeps its scale; no arrow changes side |
| HallEffect.UpdateArrowsIdempotent | src/Nmain.js:501-520 | recomputing the arrows a second time from the same inputs changes nothing more |
| HallEffect.ShownSide | src/Nmain.js:507-514 | the posZ arrows show for a negative coefficient and the negZ ones otherwise, zero included |
| HallEffect.UpdateArrow | src/Nmain.js:501-520 | one pass of the loop over an arrow: visible iff |U| > 0.1 and on the shown side, rescaled only when visible; ArrowsAfterUpdate states it for the whole list |
| HallEffect.IndicatorZ | src/Nmain.js:395-413 | the plus and minus indicators sit at opposite z = ±W/2, with plus at -W/2 iff RH < 0 |
| HallEffect.InitialArrows | src/Nmain.js:468-473 | the four arrows start visible at scale 1, two on posZ then two on negZ |
| HallEffect.TutorialTarget | src/Nmain.js:24-45 | the five panels highlight the conductor, the magnet, the Lorentz arrows, the Hall-voltage arrows and the controls, in that order |
| HallEffect.HighlightArrows | src/Nmain.js:809-820 | every arrow visible at scale 1.5, on its own side, whatever the voltage |
| HallEffect.TutorialArrows | src/Nmain.js:697-711 | the arrows while a panel is shown: clearHighlights' recompute, then the panel's highlight; TutorialArrowsLaw states it |
| HallEffect.TutorialArrowsLaw | src/Nmain.js:697-711 | panel 3 shows all arrows at 1.5 whatever the voltage, every other panel shows the recomputed arrows, and a recompute just before a panel leaves no mark |
| HallEffect.HighlightLeavesNoTrace | src/Nmain.js:859-886 | after panel 3 the recompute gives every arrow the visibility, and a visible one the scale, it would have had without the highlight |
| HallEffect.TutorialStartOnDefaults | src/Nmain.js:686-695 | starting the tutorial on the default inputs with the four initial arrows shows the posZ arrows at 0.5 and hides the negZ arrows |
| HallEffect.Clamp | src/Nmain.js:978-987 | a clamp lands in [lo, hi] and leaves values inside unchanged |
| HallEffect.NewElectron | src/Nmain.js:267-283 | a new electron has y = 0, x in [-2.5, 2.5), z in [-0.65, 0.65), and stores its start as its original position |
| HallEffect.ElectronStep | src/Nmain.js:935-995 | one electron in one frame: drift, field push or relaxation, the clamps, and the wrap with a fresh z; FieldPush, RelaxTowardsOriginal and ElectronStepBounds state it |
| HallEffect.Drift | src/Nmain.js:937-941 | x moves by 0.03 I and y falls by 0.001; z is kept |
| HallEffect.Deflect | src/Nmain.js:943-976 | inside the field z is pushed by f (1 - z / (d/2)) with f = 0.01 U; outside, y and z relax 5% towards the original; FieldPush and RelaxTowardsOriginal state both cases |
| HallEffect.Confine | src/Nmain.js:978-987 | y and z clamped to the inside of the conductor; ElectronStepBounds states the electron ends inside |
| HallEffect.Wraps | src/Nmain.js:990 | an electron right of 2.875 is put back at the left with a fresh z; ElectronStepBounds and WrapCanLeaveZRange state where it lands |
| HallEffect.FieldPush | src/Nmain.js:944-949 | inside the box z moves by -f (1 - z / (W/2)) with f = 0.01 U: no push at z = W/2, push f at the centre line, x and y kept |
| HallEffect.RelaxTowardsOriginal | src/Nmain.js:958-969 | outside the box y and z close 5% of their distance to the original position; x is kept |
| HallEffect.Lerp | src/Nmain.js:960-969 | THREE.MathUtils.lerp, (1 - t) a + t b; with t = 0.05 RelaxTowardsOriginal states it closes 5% of the gap |
| HallEffect.ElectronStepBounds | src/Nmain.js:978-995 | after a frame y is in [-H/2 + s, H/2 - s] and x <= L/2 - s; without a wrap z is in [-W/2 + s, W/2 - s]; a wrap puts x at -L/2 + s, z at the fresh draw in ±0.65, and resets the original position |
| HallEffect.WrapCanLeaveZRange | src/Nmain.js:990-992 | a wrap with draw 0 puts z at -0.65, outside the z clamp of ±0.625 |
| HallEffect.ElectronsStep | src/Nmain.js:935-1007 | the frame keeps the number of electrons |
| HallEffect.Limits | src/Nmain.js:48-52 | the bounds are y within ±0.125, z within ±0.625 and x up to 2.875 |
| HallEffect.DefaultsOnFullPage | src/Nmain.js:564-588 | after a reset with all inputs present, I = B = 1, RH = -0.53 and U_H = -0.53 / 1.5: the posZ arrows show at scale 0.5 and plus sits at -W/2 |
| HallEffect.DefaultControls | src/Nmain.js:564-571 | every input present on the page is set to its default: both sliders to 50 and the material to -5.3; missing inputs stay missing; DefaultsOnFullPage states the voltage, arrows and indicators it gives |
| HallEffect.NoArrowsStayNone | public/nmain.js:409-424 | with no arrows the visibility loop changes nothing |
| HallEffect.HallEffectSim.constructor | src/Nmain.js:8-103 | 15 new electrons, each already moved by the one frame init()'s animate() runs before the arrows exist; then the four Hall arrows; the indicators at the positions the sign of RH selects; not paused; tutorial off at step 0 with no panel handler |
| HallEffect.HallEffectSim.WithoutArrows | public/nmain.js:6-90 | the same start with the same first frame from init()'s animate(), but the arrow list stays empty because this constructor never builds it |
| HallEffect.HallEffectSim.CreateElectrons | src/Nmain.js:267-283 | one electron per pair of draws is appended, in order; the existing ones are kept |
| HallEffect.HallEffectSim.CalculateHallVoltage | src/Nmain.js:487-527 | returns U_H from the inputs, runs the arrow loop in place, and places the indicators |
| HallEffect.HallEffectSim.UpdateChargeIndicators | src/Nmain.js:395-413 | the indicators take the positions the sign of RH selects |
| HallEffect.HallEffectSim.UpdateElectronPositions | src/Nmain.js:930-1008 | while paused nothing changes; otherwise the voltage is recomputed and every electron takes one step, in place |
| HallEffect.HallEffectSim.TogglePause | src/Nmain.js:591-597 | the pause button flips isPaused only |
| HallEffect.HallEffectSim.MoveCurrentSlider | src/Nmain.js:530-533 | moving the current slider only changes its value: no handler is attached, so I and U_H change from the next frame, and nothing else changes now |
| HallEffect.HallEffectSim.MoveMagneticFieldSlider | src/Nmain.js:535-538 | moving the field slider only changes its value, read by the next frame; nothing else changes now |
| HallEffect.HallEffectSim.StartTutorial | src/Nmain.js:686-695 | the tutorial is active at step 0 with the simulation paused and the panel's click handler installed; the arrows are recomputed from the inputs (panel 0 highlights the conductor, not the arrows) and the indicators follow RH |
| HallEffect.HallEffectSim.ClearHighlights | src/Nmain.js:859-896 | the arrows and indicators go back to what the inputs select (its calculateHallVoltage at 886); nothing else the model keeps changes |
| HallEffect.HallEffectSim.HighlightObject | src/Nmain.js:741-857 | the Hall-voltage target makes every arrow visible at scale 1.5, keeping its side; the other four targets change no model state |
| HallEffect.HallEffectSim.ShowTutorialStep | src/Nmain.js:697-738 | with the tutorial off nothing changes; otherwise the arrows become the current panel's tutorial arrows, the indicators follow RH and the click handler is installed |
| HallEffect.HallEffectSim.ShownStep | src/Nmain.js:697-709 | a rendered tutorial step is always one of the five panels |
| HallEffect.HallEffectSim.TutorialClick | src/Nmain.js:720-737 | a click advances the step; while the tutorial is on the new panel is shown with its highlight (all arrows visible at 1.5 on panel 3, the recomputed arrows otherwise); reaching 5 removes the handler, recomputes the arrows, ends the tutorial and unpauses; without a handler, or with the tutorial off after a reset, the arrows and indicators stay |
| HallEffect.HallEffectSim.ResetToDefaults | src/Nmain.js:564-588 | the existing inputs get 50, 50 and -5.3; unpaused; tutorial off at step 0; the voltage, arrows and indicators are recomputed |
| HallEffect.HallEffectSim.SelectMaterial | src/Nmain.js:613-619 | a new material recomputes the voltage, arrows and indicators for it |
| Vectors.LengthLaw | public/scene4.js:359 | a length is non-negative, its square is x^2 + y^2 + z^2, and it is 0 iff the vector is 0 |
| Vectors.Normalize | public/scene4.js:409 | Vector3.normalize, dividing by `length() || 1`; NormalizeUnit, RescaleLength, RescaleDirection and NormalizeZero state it |
| Vectors.Reflect | public/scene4.js:453 | Vector3.reflect, v - 2 (v . n) n; ReflectLaw and ReflectZero state it |
| Vectors.NormalizeUnit | public/scene4.js:452 | normalising a non-zero vector gives a unit vector along it |
| Vectors.RescaleLength | public/scene4.js:409 | `normalize().multiplyScalar(s)` with s >= 0 gives a non-zero vector the length s |
| Vectors.RescaleDirection | public/scene4.js:516 | `normalize().multiplyScalar(s)` gives a multiple s / |a| of a, along the same direction |
| Vectors.NormalizeZero | public/scene4.js:409 | the zero vector normalises, and rescales, to itself |
| Vectors.ReflectLaw | public/scene4.js:453 | reflection about a unit normal negates the normal part, keeps the tangential part and keeps the length |
| Vectors.ReflectZero | public/scene4.js:453 | reflecting about the zero vector changes nothing |

## Left out

- Rendering is left out: three.js scenes, meshes, materials, lights,
  cameras, OrbitControls and `renderer.render`. The arrow helpers only
  count as far as the Hall arrows' visibility and scale. The trail tube
  meshes (`updateTrailMesh`, `updateTrailMeshes`) are left out, including
  the cyclotron's fallback trim to 200 points when building a tube throws.
  So are the dees (`createDees`), the magnet and its field lines, the
  E-field visualisation (`createEFieldVisualization`, `createArrows`,
  `toggleEField`, `toggleArrows`), the force arrow
  (`updateForceArrow`, `showForce`), the gap and rim flashes, the dee colour
  swaps, the tutorial highlights other than the Hall-voltage arrows'
  visibility and scale, and camera tweening. None of these feeds back into
  the physics or into the arrow and indicator state the model keeps.
- Page and canvas work is left out: `updateUI`, `updateStatsDisplay` text
  (except the status choice), the canvas `draw*` methods, MathJax, the
  electron info panel's text, `console.log`, the resize handlers and the
  explanation toggle.
- The mass spectrometer's `handleResize` (src/Massenspektrometer.js:58-62)
  sets the canvas width and height to the window size. `update` reads the
  width for its detector test (lines 283 and 292) and `createParticle` reads
  the height for the orbit centre (line 102). The model keeps them as the
  fixed fields `MassSpectrometerSim.width` and `height`, so a resize in the
  middle of a run is not modelled.
- A click on an electron (src/Nmain.js:630-651, public/nmain.js:528-548)
  calls `calculateHallVoltage` through `displayElectronInfo`. That
  recomputes the arrows and indicators from the current inputs, even while
  paused, exactly as `CalculateHallVoltage` does. The raycast choosing the
  electron and the panel are not modelled, so this way of running
  `CalculateHallVoltage` has no member of its own.
- `requestAnimationFrame` is modelled by calling `Animate` (or
  `AnimationFrame`) once per frame. `setTimeout` is not modelled.
- `Math.random` draws are parameters in [0, 1). The `prompt` dialogs of
  the add-ion button are parameters: the parsed mass as an `Option`, the
  typed symbol, and the mass as printed.
- Values read from page inputs are parameters, typed as already parsed:
  `parseInt` and `parseFloat` of the Hall sliders and the material select,
  the Wien filter's sliders and number fields (`Slide`, `Type`), and the
  mass spectrometer's B and V sliders and inputs (`SetMagneticField`,
  `SetVoltage`). An empty or non-numeric number field parses to NaN in the
  source, and that case is not modelled (see the floating-point line
  below).
- IEEE-754 rounding, NaN and floating-point drift are left out. The model
  computes over exact reals. `Math.sqrt`, `Math.atan2` and `Math.cos` are
  uninterpreted; only what `Lawful` states is known about them.
- The `public/scene4.js` sliders (`setupUIControls`) are left out. They
  change `params` while the scene runs. In the model the parameters are
  fixed for each `CyclotronSim` object. The extraction toggle is covered
  only as far as it resets.
- `isInGap` in `public/scene4.js` is not modelled, because the stepper never
  calls it. `src/scene4.js` has its own gap test, which is modelled.
- The stray text at the top of `public/nmain.js` stops that module from
  parsing. The model treats the file as the same class as `src/Nmain.js`,
  with its own constructor `WithoutArrows`.
- `Cyclotron.ImpulseEnergy`: requires that the energy after the impulse,
  2 (E + q V) / m, is not negative. The source takes its square root
  unchecked and would produce NaN.
- Division by zero becomes a precondition wherever the source divides:
  - a zero mass in the cyclotron;
  - B = 0 in the Wien ideal speed;
  - a zero distance between the two bodies;
  - a zero mass or field in the mass spectrometer.
- `MassSpectrometer.MassSpectrometerSim.SetMagneticField`: requires B ≠ 0.
  The source divides by B when it recomputes the radii.
- `MassSpectrometer.MassSpectrometerSim.CreateParticle`: requires every
  ion mass to be positive (`Valid`). `addIon` itself accepts any mass, and
  the source's square root and division would give NaN or Infinity for a
  non-positive one.
- `Cyclotron.CyclotronSim.ApplyForces`: a method of the model only. It is
  the second half of `updatePhysics`, split out so that each half can be
  proved on its own.
- `HallEffect.HallEffectSim.TutorialClick`: a click on the panel with no
  handler installed changes nothing. In the source the panel has no handler
  in that state at all.
- `WienFilter.WienFilterSim.Slide`: requires the slider value to lie in the
  slider's range, which the browser's range input guarantees.
