/** The cyclotron of public/scene4.js: a charged particle circles in a
    magnetic field B along y, gains the energy q*V each time it crosses the gap
    between the two dees (the line x = 0), and at the rim of the dees is either
    extracted, reflected back in, or stopped.

    The per-frame rule is given twice: as functions on a State value, which
    the lemmas below reason about, and as the methods of CyclotronSim, which
    update the fields in place as the source does and are proved to agree
    with the functions. */
module Cyclotron {
  import opened Vectors
  import opened Trails

  const GapCrossingCooldown: real := 0.2
  const Dt: real := 0.01
  const HalfDt: real := Dt * 0.5
  const MaxTrailLength: nat := 3000
  const MinTrailLength: nat := 200
  /** Above this speed the gap gives no more energy. */
  const SpeedLimit: real := 200.0
  /** Half-width, in radians, of the extraction window around extractionAngle. */
  const ExtractionTolerance: real := 0.05

  /** The `params` object, without its `particleExtracted` flag (which is State.extracted). */
  datatype Params = Params(
    mass: real,
    charge: real,
    magneticField: real,
    voltage: real,
    initialRadius: real,
    initialSpeed: real,
    deesRadius: real,
    extractionAngle: real,
    extractionEnabled: bool)

  const DefaultParams: Params := Params(1.0, 1.0, 0.5, 3.0, 5.0, 3.0, 30.0, 0.15, true)

  /** The module-level simulation variables the stepper reads and writes. */
  datatype State = State(
    position: Vec3,
    velocity: Vec3,
    previousPosition: Vec3,
    previousQuadrant: nat,
    lastGapCrossingTime: real,
    time: real,
    extracted: bool,
    animating: bool)

  // ---------------------------------------------------------------------
  // Quadrants of the xz-plane

  /** Quadrant 1 to 4 counterclockwise from +x, and 0 for the origin. */
  function Quadrant(x: real, z: real): (q: nat)
    ensures q <= 4
    ensures q == 0 <==> x == 0.0 && z == 0.0
    // the open quadrants
    ensures x > 0.0 && z > 0.0 ==> q == 1
    ensures x < 0.0 && z > 0.0 ==> q == 2
    ensures x < 0.0 && z < 0.0 ==> q == 3
    ensures x > 0.0 && z < 0.0 ==> q == 4
    // the four half-axes
    ensures z == 0.0 && x > 0.0 ==> q == 1
    ensures x == 0.0 && z > 0.0 ==> q == 2
    ensures z == 0.0 && x < 0.0 ==> q == 3
    ensures x == 0.0 && z < 0.0 ==> q == 4
  {
    if x > 0.0 && z >= 0.0 then 1
    else if x <= 0.0 && z > 0.0 then 2
    else if x < 0.0 && z <= 0.0 then 3
    else if x >= 0.0 && z < 0.0 then 4
    else 0
  }

  /** The tie-breaking is consistent with rotation: turning a point a quarter
      turn counterclockwise, (x, z) to (-z, x), moves it to the next quadrant. */
  lemma QuadrantRotation(x: real, z: real)
    ensures var q := Quadrant(x, z);
      Quadrant(-z, x) == if q == 0 then 0 else q % 4 + 1
  {
  }

  // ---------------------------------------------------------------------
  // Forces

  /** calculateLorentzForce: q (v x B) with B = (0, B, 0). */
  function LorentzForce(p: Params, v: Vec3): (f: Vec3)
    ensures f.y == 0.0
    ensures f.x == -p.charge * p.magneticField * v.z && f.z == p.charge * p.magneticField * v.x
    ensures Dot(f, v) == 0.0
  {
    Scale(Cross(v, Vec3(0.0, p.magneticField, 0.0)), p.charge)
  }

  /** One half step of the magnetic acceleration F/m over dt/2. */
  function HalfKick(p: Params, v: Vec3): Vec3
    requires p.mass != 0.0
  {
    Add(v, Scale(Scale(LorentzForce(p, v), 1.0 / p.mass), HalfDt))
  }

  /** The rotation rate of a half step: q B (dt/2) / m. */
  function KickRate(p: Params): real
    requires p.mass != 0.0
  {
    p.charge * p.magneticField * (1.0 / p.mass) * HalfDt
  }

  /** A half step turns v in the xz-plane by the rate k and never changes v.y ... */
  lemma HalfKickForm(p: Params, v: Vec3)
    requires p.mass != 0.0
    ensures var k := KickRate(p);
      HalfKick(p, v) == Vec3(v.x - k * v.z, v.y, v.z + k * v.x)
  {
    var q, b, im := p.charge, p.magneticField, 1.0 / p.mass;
    var f := LorentzForce(p, v);
    var w := HalfKick(p, v);
    assert w.x == v.x + f.x * im * HalfDt;
    assert w.z == v.z + f.z * im * HalfDt;
    assert (-q * b * v.z) * im * HalfDt == -(q * b * im * HalfDt) * v.z;
    assert (q * b * v.x) * im * HalfDt == (q * b * im * HalfDt) * v.x;
  }

  /** ... it stretches the xz-part of v by the factor 1 + k^2 ... */
  lemma HalfKickLengthSq(p: Params, v: Vec3)
    requires p.mass != 0.0
    ensures var k := KickRate(p);
      LengthSq(HalfKick(p, v)) == (1.0 + k * k) * (v.x * v.x + v.z * v.z) + v.y * v.y
  {
    HalfKickForm(p, v);
  }

  /** ... and it maps only the zero vector to zero. */
  lemma HalfKickZero(p: Params, v: Vec3)
    requires p.mass != 0.0
    ensures HalfKick(p, v) == Zero <==> v == Zero
  {
    var k := KickRate(p);
    HalfKickForm(p, v);
    if HalfKick(p, v) == Zero {
      var c := 1.0 + k * k;
      assert k * k >= 0.0;
      assert v.z * c == 0.0;
      ProductZero(v.z, c);
    }
  }

  lemma ProductZero(a: real, b: real)
    requires a * b == 0.0 && b >= 1.0
    ensures a == 0.0
  {
    assert a == (a * b) / b;
  }

  // ---------------------------------------------------------------------
  // The gap-crossing detector and the energy impulse (applyElectricField)

  /** What applyElectricField decides for a state. */
  datatype Gap = FirstSample | NoCrossing | CoolingDown | TooFast | Impulse

  /** x changed sign (or left zero) since the previous sample. */
  predicate XSignChanged(before: real, now: real) {
    (before >= 0.0 && now < 0.0) || (before <= 0.0 && now > 0.0)
  }

  /** crossedGap: a 1 to 2 or 3 to 4 quadrant move, or a change of the sign of x off the x axis. */
  predicate CrossedGap(s: State) {
    var q := Quadrant(s.position.x, s.position.z);
    var z := s.position.z;
    var xSignChanged := XSignChanged(s.previousPosition.x, s.position.x);
    || (s.previousQuadrant == 1 && q == 2)
    || (s.previousQuadrant == 3 && q == 4)
    || (xSignChanged && z > 0.0)
    || (xSignChanged && z < 0.0)
  }

  function Classify(s: State, lib: MathLib): Gap {
    if s.previousQuadrant == 0 then FirstSample
    else if !CrossedGap(s) then NoCrossing
    else if s.time - s.lastGapCrossingTime < GapCrossingCooldown then CoolingDown
    else if Length(s.velocity, lib) > SpeedLimit then TooFast
    else Impulse
  }

  /** 0.5 m v^2 */
  function KineticEnergy(p: Params, speed: real): real {
    0.5 * p.mass * speed * speed
  }

  /** sqrt(2 (E + q V) / m): the speed after one gap crossing. */
  function NewSpeed(p: Params, speed: real, lib: MathLib): real
    requires p.mass != 0.0
  {
    lib.sqrt(2.0 * (KineticEnergy(p, speed) + p.charge * p.voltage) / p.mass)
  }

  /** applyElectricField: the new state (its result is Classify(s, lib) == Impulse). */
  function AfterGap(p: Params, s: State, lib: MathLib): State
    requires p.mass != 0.0
  {
    var q := Quadrant(s.position.x, s.position.z);
    match Classify(s, lib)
    case FirstSample => s.(previousQuadrant := q)
    case NoCrossing => s.(previousPosition := s.position, previousQuadrant := q)
    case CoolingDown => s.(previousPosition := s.position)
    case TooFast => s.(previousPosition := s.position)
    case Impulse =>
      var speed := Length(s.velocity, lib);
      s.(previousPosition := s.position, previousQuadrant := q, lastGapCrossingTime := s.time,
         velocity := Scale(Normalize(s.velocity, lib), NewSpeed(p, speed, lib)))
  }

  /** The first sample after a reset only records the quadrant. */
  lemma FirstSampleOnlyRecords(p: Params, s: State, lib: MathLib)
    requires p.mass != 0.0
    requires s.previousQuadrant == 0
    ensures Classify(s, lib) != Impulse
    ensures AfterGap(p, s, lib) == s.(previousQuadrant := Quadrant(s.position.x, s.position.z))
  {
  }

  /** Every later sample stores the position, and a crossing is reported
      exactly for a 1 to 2 or 3 to 4 move or an x sign change off the x axis. */
  lemma CrossingDetection(p: Params, s: State, lib: MathLib)
    requires p.mass != 0.0
    requires s.previousQuadrant != 0
    ensures AfterGap(p, s, lib).previousPosition == s.position
    ensures var q := Quadrant(s.position.x, s.position.z);
      Classify(s, lib) != NoCrossing <==>
        || (s.previousQuadrant == 1 && q == 2)
        || (s.previousQuadrant == 3 && q == 4)
        || (XSignChanged(s.previousPosition.x, s.position.x) && s.position.z != 0.0)
  {
  }

  /** Without a crossing only the quadrant and position are stored; a crossing
      suppressed by the cooldown or the speed limit keeps the quadrant, the
      crossing time and the velocity. */
  lemma NoImpulseKeepsVelocity(p: Params, s: State, lib: MathLib)
    requires p.mass != 0.0
    requires Classify(s, lib) != Impulse
    ensures var r := AfterGap(p, s, lib);
      && r.velocity == s.velocity && r.lastGapCrossingTime == s.lastGapCrossingTime
      && r.position == s.position && r.time == s.time
      && (Classify(s, lib) == NoCrossing ==> r.previousQuadrant == Quadrant(s.position.x, s.position.z))
      && (Classify(s, lib) in {CoolingDown, TooFast} ==> r.previousQuadrant == s.previousQuadrant)
  {
  }

  /** A suppressed crossing: within the cooldown after the last impulse, or faster than the limit. */
  lemma Suppression(s: State, lib: MathLib)
    requires s.previousQuadrant != 0 && CrossedGap(s)
    ensures Classify(s, lib) == CoolingDown <==> s.time - s.lastGapCrossingTime < GapCrossingCooldown
    ensures Classify(s, lib) == Impulse <==>
      s.time - s.lastGapCrossingTime >= GapCrossingCooldown && Length(s.velocity, lib) <= SpeedLimit
  {
  }

  /** A firing crossing records the time and quadrant. */
  lemma ImpulseBookkeeping(p: Params, s: State, lib: MathLib)
    requires p.mass != 0.0
    requires Classify(s, lib) == Impulse
    ensures var r := AfterGap(p, s, lib);
      && r.lastGapCrossingTime == s.time
      && r.previousQuadrant == Quadrant(s.position.x, s.position.z)
      && r.previousPosition == s.position
      && r.position == s.position && r.time == s.time
  {
  }

  /** A firing crossing adds exactly q V to the kinetic energy and keeps the
      direction of motion (the new velocity is a non-negative multiple of the
      old one); a particle at rest stays at rest.  The new energy must not be
      negative: the source takes the square root of it. */
  lemma ImpulseEnergy(p: Params, s: State, lib: MathLib)
    requires Lawful(lib) && p.mass != 0.0
    requires Classify(s, lib) == Impulse
    requires 2.0 * (KineticEnergy(p, Length(s.velocity, lib)) + p.charge * p.voltage) / p.mass >= 0.0
    ensures var r := AfterGap(p, s, lib);
      && (s.velocity == Zero ==> r.velocity == Zero)
      && (s.velocity != Zero ==>
            && KineticEnergy(p, Length(r.velocity, lib)) == KineticEnergy(p, Length(s.velocity, lib)) + p.charge * p.voltage
            && Length(r.velocity, lib) / Length(s.velocity, lib) >= 0.0
            && r.velocity == Scale(s.velocity, Length(r.velocity, lib) / Length(s.velocity, lib)))
  {
    var speed := Length(s.velocity, lib);
    var e1 := KineticEnergy(p, speed) + p.charge * p.voltage;
    var ns := NewSpeed(p, speed, lib);
    var r := AfterGap(p, s, lib);
    assert r.velocity == Scale(Normalize(s.velocity, lib), ns);
    if s.velocity != Zero {
      NewSpeedLaw(p, speed, lib);
      RescaledEnergy(p, s.velocity, ns, e1, lib);
    } else {
      NormalizeZero(lib, ns);
    }
  }

  /** Rescaling a non-zero velocity to a speed ns with ns^2 = 2 e / m gives
      the kinetic energy e, along the old direction of motion. */
  lemma RescaledEnergy(p: Params, v: Vec3, ns: real, e: real, lib: MathLib)
    requires Lawful(lib) && p.mass != 0.0 && v != Zero
    requires ns >= 0.0 && ns * ns == 2.0 * e / p.mass
    ensures var w := Scale(Normalize(v, lib), ns);
      && KineticEnergy(p, Length(w, lib)) == e
      && Length(w, lib) / Length(v, lib) >= 0.0
      && w == Scale(v, Length(w, lib) / Length(v, lib))
  {
    var w := Scale(Normalize(v, lib), ns);
    RescaleLength(v, ns, lib);
    RescaleDirection(v, ns, lib);
    EnergyOfSpeed(p, ns, e, Length(w, lib), Length(v, lib));
  }

  lemma EnergyOfSpeed(p: Params, ns: real, e: real, len: real, oldLen: real)
    requires p.mass != 0.0 && ns >= 0.0 && ns * ns == 2.0 * e / p.mass
    requires len == ns && oldLen > 0.0
    ensures KineticEnergy(p, len) == e && len / oldLen >= 0.0
  {
    assert 0.5 * p.mass * ns * ns == 0.5 * p.mass * (ns * ns);
    HalfOfDouble(p.mass, e);
    NonNegativeQuotient(ns, oldLen);
  }

  /** The new speed is the non-negative root of 2 (E + q V) / m. */
  lemma NewSpeedLaw(p: Params, speed: real, lib: MathLib)
    requires Lawful(lib) && p.mass != 0.0
    requires 2.0 * (KineticEnergy(p, speed) + p.charge * p.voltage) / p.mass >= 0.0
    ensures var ns := NewSpeed(p, speed, lib);
      ns >= 0.0 && ns * ns == 2.0 * (KineticEnergy(p, speed) + p.charge * p.voltage) / p.mass
  {
    SqrtLaw(lib, 2.0 * (KineticEnergy(p, speed) + p.charge * p.voltage) / p.mass);
  }

  lemma HalfOfDouble(m: real, e: real)
    requires m != 0.0
    ensures 0.5 * m * (2.0 * e / m) == e
  {
  }

  lemma NonNegativeQuotient(a: real, b: real)
    requires a >= 0.0 && b > 0.0
    ensures a / b >= 0.0
  {
  }

  // ---------------------------------------------------------------------
  // One frame of updatePhysics

  /** What happens at the rim of the dees. */
  datatype Rim = Inside | Extract | Reflect | Halt

  /** sqrt(x^2 + z^2) */
  function Radius(pos: Vec3, lib: MathLib): real {
    lib.sqrt(pos.x * pos.x + pos.z * pos.z)
  }

  /** atan2(z, x): the angle of the position in the xz-plane. */
  function Angle(pos: Vec3, lib: MathLib): real {
    lib.atan2(pos.z, pos.x)
  }

  /** The outward normal used for reflection: the unit vector (x, 0, z) / r. */
  function RimNormal(pos: Vec3, lib: MathLib): Vec3 {
    Normalize(Vec3(pos.x, 0.0, pos.z), lib)
  }

  function RimCase(p: Params, s: State, lib: MathLib): Rim {
    if Radius(s.position, lib) <= p.deesRadius then Inside
    else if !p.extractionEnabled then Halt
    else if Abs(Angle(s.position, lib) - p.extractionAngle) < ExtractionTolerance then Extract
    else Reflect
  }

  /** The state after the rim check, for the cases that go on to apply forces. */
  function AfterRim(p: Params, s: State, lib: MathLib): State {
    match RimCase(p, s, lib)
    case Extract => s.(extracted := true)
    case Reflect => s.(velocity := Vectors.Reflect(s.velocity, RimNormal(s.position, lib)))
    case _ => s
  }

  /** The impulse (if any), the two magnetic half steps around the position
      update, the renormalisation to the stored speed when no impulse fired,
      and the clock. */
  function Forces(p: Params, s: State, lib: MathLib): State
    requires p.mass != 0.0
  {
    var currentSpeed := Length(s.velocity, lib);
    var fired := Classify(s, lib) == Impulse;
    var e := AfterGap(p, s, lib);
    var v1 := HalfKick(p, e.velocity);
    var position := Add(e.position, Scale(v1, Dt));
    var v2 := HalfKick(p, v1);
    var v3 := if fired then v2 else Scale(Normalize(v2, lib), currentSpeed);
    e.(position := position, velocity := v3, time := e.time + Dt)
  }

  /** updatePhysics */
  function AfterFrame(p: Params, s: State, lib: MathLib): State
    requires p.mass != 0.0
  {
    if s.extracted then s.(position := Add(s.position, Scale(s.velocity, Dt)))
    else if RimCase(p, s, lib) == Halt then s.(animating := false)
    else Forces(p, AfterRim(p, s, lib), lib)
  }

  /** Whether this frame's gap check fires. */
  predicate Fires(p: Params, s: State, lib: MathLib) {
    !s.extracted && RimCase(p, s, lib) != Halt && Classify(AfterRim(p, s, lib), lib) == Impulse
  }

  /** An extracted particle only drifts: v dt is added to its position. */
  lemma ExtractedOnlyDrifts(p: Params, s: State, lib: MathLib)
    requires p.mass != 0.0
    requires s.extracted
    ensures AfterFrame(p, s, lib) == s.(position := Add(s.position, Scale(s.velocity, Dt)))
  {
  }

  /** Inside the extraction window the latch is set and the frame's forces are still applied. */
  lemma ExtractionLatches(p: Params, s: State, lib: MathLib)
    requires p.mass != 0.0
    requires !s.extracted && RimCase(p, s, lib) == Extract
    ensures Radius(s.position, lib) > p.deesRadius && p.extractionEnabled
    ensures AfterFrame(p, s, lib) == Forces(p, s.(extracted := true), lib)
    ensures AfterFrame(p, s, lib).extracted
  {
  }

  /** Outside the window the velocity is reflected about the unit rim normal:
      its normal component is negated, its tangential component and its speed
      are kept. */
  lemma RimReflection(p: Params, s: State, lib: MathLib)
    requires Lawful(lib)
    requires p.deesRadius >= 0.0
    requires RimCase(p, s, lib) == Reflect
    ensures var n := RimNormal(s.position, lib);
      var v := AfterRim(p, s, lib).velocity;
      && LengthSq(n) == 1.0 && n.y == 0.0
      && Dot(v, n) == -Dot(s.velocity, n)
      && Sub(v, Scale(n, Dot(v, n))) == Sub(s.velocity, Scale(n, Dot(s.velocity, n)))
      && Length(v, lib) == Length(s.velocity, lib)
  {
    var pos := s.position;
    var w := Vec3(pos.x, 0.0, pos.z);
    assert LengthSq(w) == pos.x * pos.x + pos.z * pos.z;
    if w == Zero {
      RadiusAtCentre(pos, lib);
      assert false;
    }
    NormalizeUnit(w, lib);
    ReflectLaw(s.velocity, RimNormal(pos, lib));
    RimReflectKeepsLength(s.velocity, pos, lib);
  }

  lemma RadiusAtCentre(pos: Vec3, lib: MathLib)
    requires Lawful(lib)
    requires pos.x == 0.0 && pos.z == 0.0
    ensures Radius(pos, lib) == 0.0
  {
    assert pos.x * pos.x + pos.z * pos.z == 0.0 * 0.0;
    SqrtOfSquare(lib, 0.0);
  }

  /** With extraction disabled, reaching the rim stops the animation and changes nothing else. */
  lemma HaltFreezes(p: Params, s: State, lib: MathLib)
    requires p.mass != 0.0
    requires !s.extracted && RimCase(p, s, lib) == Halt
    ensures AfterFrame(p, s, lib) == s.(animating := false)
  {
  }

  /** Without an impulse the frame ends at the speed it started with, and the clock advances by dt. */
  lemma SpeedKeptWithoutImpulse(p: Params, s: State, lib: MathLib)
    requires Lawful(lib) && p.mass != 0.0
    requires !s.extracted && RimCase(p, s, lib) != Halt && !Fires(p, s, lib)
    ensures Length(AfterFrame(p, s, lib).velocity, lib) == Length(s.velocity, lib)
    ensures AfterFrame(p, s, lib).time == s.time + Dt
  {
    var a := AfterRim(p, s, lib);
    RimKeepsSpeed(p, s, lib);
    ForcesKeepSpeed(p, a, lib);
    ForcesClock(p, a, lib);
  }

  /** The rim check changes the velocity at most by a reflection, so the speed is kept. */
  lemma RimKeepsSpeed(p: Params, s: State, lib: MathLib)
    requires Lawful(lib)
    ensures Length(AfterRim(p, s, lib).velocity, lib) == Length(s.velocity, lib)
    ensures AfterRim(p, s, lib).time == s.time
    ensures AfterRim(p, s, lib).lastGapCrossingTime == s.lastGapCrossingTime
  {
    if RimCase(p, s, lib) == Reflect {
      RimReflectKeepsLength(s.velocity, s.position, lib);
    }
  }

  /** Forces without an impulse: the velocity is renormalised to the speed it had. */
  lemma ForcesKeepSpeed(p: Params, a: State, lib: MathLib)
    requires Lawful(lib) && p.mass != 0.0
    requires Classify(a, lib) != Impulse
    ensures Length(Forces(p, a, lib).velocity, lib) == Length(a.velocity, lib)
  {
    var e := AfterGap(p, a, lib);
    assert e.velocity == a.velocity;
    var v1 := HalfKick(p, e.velocity);
    var v2 := HalfKick(p, v1);
    var speed := Length(a.velocity, lib);
    assert Forces(p, a, lib).velocity == Scale(Normalize(v2, lib), speed);
    HalfKickZero(p, e.velocity);
    HalfKickZero(p, v1);
    LengthLaw(a.velocity, lib);
    if v2 == Zero {
      assert a.velocity == Zero;
      assert speed == 0.0;
      NormalizeZero(lib, speed);
    } else {
      RescaleLength(v2, speed, lib);
    }
  }

  /** Forces advance the clock by dt and keep the crossing time the gap check leaves. */
  lemma ForcesClock(p: Params, a: State, lib: MathLib)
    requires p.mass != 0.0
    ensures Forces(p, a, lib).time == a.time + Dt
    ensures Forces(p, a, lib).lastGapCrossingTime == AfterGap(p, a, lib).lastGapCrossingTime
    ensures AfterGap(p, a, lib).time == a.time
    ensures Classify(a, lib) == Impulse ==>
      AfterGap(p, a, lib).lastGapCrossingTime == a.time && a.time - a.lastGapCrossingTime >= GapCrossingCooldown
    ensures Classify(a, lib) != Impulse ==> AfterGap(p, a, lib).lastGapCrossingTime == a.lastGapCrossingTime
  {
  }

  /** Reflection about the normalised rim vector keeps the length, also in the
      degenerate case where that vector is zero (then nothing is reflected). */
  lemma RimReflectKeepsLength(v: Vec3, pos: Vec3, lib: MathLib)
    requires Lawful(lib)
    ensures Length(Vectors.Reflect(v, RimNormal(pos, lib)), lib) == Length(v, lib)
  {
    var w := Vec3(pos.x, 0.0, pos.z);
    var n := RimNormal(pos, lib);
    if w == Zero {
      assert n == Zero;
      ReflectZero(v);
    } else {
      NormalizeUnit(w, lib);
      ReflectLaw(v, n);
      assert LengthSq(Vectors.Reflect(v, n)) == LengthSq(v);
    }
  }

  /** Frames of updatePhysics in a row. */
  function Steps(p: Params, s: State, n: nat, lib: MathLib): State
    requires p.mass != 0.0
    decreases n
  {
    if n == 0 then s else Steps(p, AfterFrame(p, s, lib), n - 1, lib)
  }

  /** Extraction is a latch: after n frames the particle is still extracted,
      its velocity and the clock are unchanged, and it has moved by n dt v. */
  lemma {:induction false} ExtractedRun(p: Params, s: State, n: nat, lib: MathLib)
    requires p.mass != 0.0
    requires s.extracted
    ensures Steps(p, s, n, lib) == s.(position := Add(s.position, Scale(s.velocity, n as real * Dt)))
    decreases n
  {
    if n > 0 {
      var v := s.velocity;
      var s1 := AfterFrame(p, s, lib);
      assert s1 == s.(position := Add(s.position, Scale(v, Dt)));
      ExtractedRun(p, s1, n - 1, lib);
      var m := (n - 1) as real * Dt;
      assert Dt + m == n as real * Dt;
      DriftTwice(s.position, v, Dt, m);
    }
  }

  lemma DriftTwice(x: Vec3, v: Vec3, a: real, b: real)
    ensures Add(Add(x, Scale(v, a)), Scale(v, b)) == Add(x, Scale(v, a + b))
  {
  }

  /** One frame either leaves the clock alone (extracted or halted) or advances it
      by dt; the last crossing time only ever moves to the current time, and
      only when the impulse fires, which needs the cooldown to have passed. */
  lemma StepClock(p: Params, s: State, lib: MathLib)
    requires p.mass != 0.0
    ensures var r := AfterFrame(p, s, lib);
      && (if s.extracted || RimCase(p, s, lib) == Halt then r.time == s.time else r.time == s.time + Dt)
      && (Fires(p, s, lib) ==> r.lastGapCrossingTime == s.time && s.time - s.lastGapCrossingTime >= GapCrossingCooldown)
      && (!Fires(p, s, lib) ==> r.lastGapCrossingTime == s.lastGapCrossingTime)
  {
    if !s.extracted && RimCase(p, s, lib) != Halt {
      var a := AfterRim(p, s, lib);
      assert a.time == s.time && a.lastGapCrossingTime == s.lastGapCrossingTime;
      ForcesClock(p, a, lib);
    }
  }

  /** The last crossing time never runs ahead of the clock. */
  lemma CrossingTimeBehindClock(p: Params, s: State, lib: MathLib)
    requires p.mass != 0.0
    requires s.lastGapCrossingTime <= s.time
    ensures var r := AfterFrame(p, s, lib);
      r.lastGapCrossingTime <= r.time && r.time >= s.time
  {
    StepClock(p, s, lib);
  }

  // ---------------------------------------------------------------------
  // Status shown to the user (the status line of updateStatsDisplay)

  datatype Status = Extracted | Stopped | Accelerating

  function StatusOf(s: State): (st: Status)
    ensures st == Extracted <==> s.extracted
    ensures st == Accelerating <==> !s.extracted && s.animating
  {
    if s.extracted then Extracted
    else if !s.animating then Stopped
    else Accelerating
  }

  /** A frame that reaches the rim with extraction disabled shows Stopped, one
      that hits the extraction window shows Extracted, and Extracted stays. */
  lemma StatusAfterStep(p: Params, s: State, lib: MathLib)
    requires p.mass != 0.0
    ensures !s.extracted && RimCase(p, s, lib) == Halt ==> StatusOf(AfterFrame(p, s, lib)) == Stopped
    ensures RimCase(p, s, lib) == Extract ==> StatusOf(AfterFrame(p, s, lib)) == Extracted
    ensures s.extracted ==> StatusOf(AfterFrame(p, s, lib)) == Extracted
  {
  }

  // ---------------------------------------------------------------------
  // The trail (updateTrail)

  datatype TrailPoint = TrailPoint(position: Vec3, time: real, speed: real, isExtracted: bool)

  /** `Math.min(5, Math.max(1, Math.floor(t)))` */
  function Factor(t: real): (f: int)
    ensures 1 <= f <= 5
    ensures t < 2.0 ==> f == 1
    ensures t >= 5.0 ==> f == 5
  {
    var fl := t.Floor;
    if fl < 1 then 1 else if fl > 5 then 5 else fl
  }

  /** A larger argument never gives a smaller factor. */
  lemma FactorMonotone(t: real, u: real)
    requires t <= u
    ensures Factor(t) <= Factor(u)
  {
    assert t.Floor <= u.Floor;
  }

  /** Record every recordFrequency-th frame: the smaller of the speed and radius factors. */
  function RecordFrequency(speed: real, radius: real): (f: int)
    ensures 1 <= f <= 5
    ensures f <= Factor(speed / 15.0) && f <= Factor(radius / 10.0)
    ensures f == Factor(speed / 15.0) || f == Factor(radius / 10.0)
  {
    if Factor(speed / 15.0) <= Factor(radius / 10.0) then Factor(speed / 15.0) else Factor(radius / 10.0)
  }

  /** A slow particle (below 30) or one near the centre (within 20) is recorded every frame. */
  lemma SlowOrNearRecordsEveryFrame(speed: real, radius: real)
    requires speed < 30.0 || radius < 20.0
    ensures RecordFrequency(speed, radius) == 1
  {
  }

  /** `Math.max(minTrailLength, Math.min(maxTrailLength, 2000))` */
  function TrailCapacity(): (n: nat)
    ensures MinTrailLength <= n <= MaxTrailLength
  {
    var m := if MaxTrailLength <= 2000 then MaxTrailLength else 2000;
    if MinTrailLength >= m then MinTrailLength else m
  }

  lemma TrailCapacityIs2000()
    ensures TrailCapacity() == 2000
  {
  }

  /** The point a recording frame appends. */
  function TrailPointOf(s: State, lib: MathLib): TrailPoint {
    TrailPoint(s.position, s.time, Length(s.velocity, lib), s.extracted)
  }

  /** Whether frame number frameCount + 1 records a point. */
  predicate Records(s: State, frameCount: nat, lib: MathLib) {
    (frameCount + 1) % RecordFrequency(Length(s.velocity, lib), Radius(s.position, lib)) == 0
  }

  /** updateTrail: the new trail (the frame counter becomes frameCount + 1). */
  function TrailAfter(trail: seq<TrailPoint>, frameCount: nat, s: State, lib: MathLib): seq<TrailPoint> {
    if Records(s, frameCount, lib) then KeepNewest(trail + [TrailPointOf(s, lib)], TrailCapacity())
    else trail
  }

  /** A recording frame leaves at most 2000 points with the new one last, the
      rest being the newest of the old points in order; a skipped frame keeps the trail. */
  lemma TrailAfterBounded(trail: seq<TrailPoint>, frameCount: nat, s: State, lib: MathLib)
    ensures var t := TrailAfter(trail, frameCount, s, lib);
      && (Records(s, frameCount, lib) ==>
            && |t| <= 2000 && |t| >= 1
            && t[|t| - 1] == TrailPointOf(s, lib)
            && t == KeepNewest(trail + [TrailPointOf(s, lib)], 2000))
      && (!Records(s, frameCount, lib) ==> t == trail)
      && (|trail| <= 2000 ==> |t| <= 2000)
  {
    TrailCapacityIs2000();
    PushThenKeep(trail, TrailPointOf(s, lib), 2000);
    KeepNewestBounded(trail + [TrailPointOf(s, lib)], 2000);
  }

  /** Every frame of a particle recorded at frequency 1 appends a point. */
  lemma FrequencyOneRecords(s: State, frameCount: nat, lib: MathLib)
    requires RecordFrequency(Length(s.velocity, lib), Radius(s.position, lib)) == 1
    ensures Records(s, frameCount, lib)
  {
  }

  // ---------------------------------------------------------------------
  // The state at start-up and after a reset

  /** createParticle: at (R0, 0, 0), moving along z at max(R0 qB/m, initialSpeed). */
  function ParticleStart(p: Params): (r: (Vec3, Vec3))
    requires p.mass != 0.0
    ensures r.0 == Vec3(p.initialRadius, 0.0, 0.0)
    ensures r.1.x == 0.0 && r.1.y == 0.0
    ensures r.1.z >= p.initialSpeed && r.1.z >= p.initialRadius * (p.charge * p.magneticField / p.mass)
    ensures r.1.z == p.initialSpeed || r.1.z == p.initialRadius * (p.charge * p.magneticField / p.mass)
  {
    var frequency := p.charge * p.magneticField / p.mass;
    (Vec3(p.initialRadius, 0.0, 0.0), Vec3(0.0, 0.0, Max(p.initialRadius * frequency, p.initialSpeed)))
  }

  /** With the default parameters the start speed is initialSpeed = 3, above R0 qB/m = 2.5. */
  lemma DefaultStart()
    ensures ParticleStart(DefaultParams).1 == Vec3(0.0, 0.0, 3.0)
  {
  }

  /** The simulation variables after resetSimulation (and at start-up). */
  function ResetState(p: Params): (s: State)
    requires p.mass != 0.0
    ensures !s.extracted && !s.animating && s.time == 0.0
    ensures s.previousQuadrant == 0 && s.lastGapCrossingTime == 0.0
    ensures s.position == s.previousPosition == ParticleStart(p).0
    ensures s.velocity == ParticleStart(p).1
  {
    var start := ParticleStart(p);
    State(start.0, start.1, start.0, 0, 0.0, 0.0, false, false)
  }

  /** The first frame after a reset only records the quadrant: nothing fires. */
  lemma FirstFrameAfterReset(p: Params, lib: MathLib)
    requires p.mass != 0.0
    ensures !Fires(p, ResetState(p), lib)
  {
    var s := ResetState(p);
    if RimCase(p, s, lib) != Halt {
      assert AfterRim(p, s, lib).previousQuadrant == 0;
    }
  }

  // ---------------------------------------------------------------------
  // The module-level variables, updated in place

  class CyclotronSim {
    const params: Params
    var position: Vec3
    var velocity: Vec3
    var previousPosition: Vec3
    var previousQuadrant: nat
    var lastGapCrossingTime: real
    var time: real
    var extracted: bool
    var animating: bool
    var trail: seq<TrailPoint>
    var frameCount: nat

    /** The simulation variables as one State value. */
    function Snapshot(): State
      reads this
    {
      State(position, velocity, previousPosition, previousQuadrant, lastGapCrossingTime, time, extracted, animating)
    }

    /** Module initialisation followed by createParticle. */
    constructor (p: Params)
      requires p.mass != 0.0
      ensures params == p
      ensures Snapshot() == ResetState(p)
      ensures trail == [] && frameCount == 0
    {
      params := p;
      var start := ParticleStart(p);
      position := start.0;
      previousPosition := start.0;
      velocity := start.1;
      previousQuadrant := 0;
      lastGapCrossingTime := 0.0;
      time := 0.0;
      extracted := false;
      animating := false;
      trail := [];
      frameCount := 0;
    }

    /** applyElectricField: the gap detector and the energy impulse. */
    method ApplyElectricField(lib: MathLib) returns (fired: bool)
      requires params.mass != 0.0
      modifies this
      ensures fired == (Classify(old(Snapshot()), lib) == Impulse)
      ensures Snapshot() == AfterGap(params, old(Snapshot()), lib)
      ensures trail == old(trail) && frameCount == old(frameCount)
    {
      ghost var s0 := Snapshot();
      var x := position.x;
      var z := position.z;
      var currentQuadrant := Quadrant(x, z);
      if previousQuadrant == 0 {
        assert Classify(s0, lib) == FirstSample;
        previousQuadrant := currentQuadrant;
        return false;
      }
      var quadrantTransition := (previousQuadrant == 1 && currentQuadrant == 2) || (previousQuadrant == 3 && currentQuadrant == 4);
      var xSignChanged := (previousPosition.x >= 0.0 && x < 0.0) || (previousPosition.x <= 0.0 && x > 0.0);
      var crossedGap := quadrantTransition || (xSignChanged && z > 0.0) || (xSignChanged && z < 0.0);
      assert crossedGap == CrossedGap(s0);
      previousPosition := position;
      if !crossedGap {
        assert Classify(s0, lib) == NoCrossing;
        previousQuadrant := currentQuadrant;
        return false;
      }
      if time - lastGapCrossingTime < GapCrossingCooldown {
        assert Classify(s0, lib) == CoolingDown;
        return false;
      }
      var currentSpeed := Length(velocity, lib);
      if currentSpeed > SpeedLimit {
        assert Classify(s0, lib) == TooFast;
        return false;
      }
      assert CrossedGap(s0) && Classify(s0, lib) == Impulse;
      previousQuadrant := currentQuadrant;
      lastGapCrossingTime := time;
      var newSpeed := NewSpeed(params, currentSpeed, lib);
      velocity := Scale(Normalize(velocity, lib), newSpeed);
      return true;
    }

    /** calculateLorentzForce for the current velocity. */
    function LorentzForceNow(): Vec3
      reads this
    {
      LorentzForce(params, velocity)
    }

    /** updatePhysics */
    method UpdatePhysics(lib: MathLib)
      requires params.mass != 0.0
      modifies this
      ensures Snapshot() == AfterFrame(params, old(Snapshot()), lib)
      ensures trail == old(trail) && frameCount == old(frameCount)
    {
      ghost var s0 := Snapshot();
      if extracted {
        position := Add(position, Scale(velocity, Dt));
        return;
      }
      var radius := Radius(position, lib);
      if radius > params.deesRadius {
        if params.extractionEnabled {
          var angle := Angle(position, lib);
          if Abs(angle - params.extractionAngle) < ExtractionTolerance {
            extracted := true;
            assert Snapshot() == AfterRim(params, s0, lib);
          } else {
            var normal := Normalize(Vec3(position.x, 0.0, position.z), lib);
            velocity := Vectors.Reflect(velocity, normal);
            assert Snapshot() == AfterRim(params, s0, lib);
          }
        } else {
          assert RimCase(params, s0, lib) == Halt;
          animating := false;
          return;
        }
      }
      assert Snapshot() == AfterRim(params, s0, lib);
      ApplyForces(lib);
    }

    /** The rest of updatePhysics once the rim check let the particle go on:
        the gap impulse, the two magnetic half steps around the position
        update, the renormalisation when no impulse fired, and the clock. */
    method ApplyForces(lib: MathLib)
      requires params.mass != 0.0
      modifies this
      ensures Snapshot() == Forces(params, old(Snapshot()), lib)
      ensures trail == old(trail) && frameCount == old(frameCount)
    {
      var currentSpeed := Length(velocity, lib);
      var energyGained := ApplyElectricField(lib);
      ghost var e := Snapshot();
      var acceleration := Scale(LorentzForceNow(), 1.0 / params.mass);
      velocity := Add(velocity, Scale(acceleration, HalfDt));
      ghost var v1 := velocity;
      assert v1 == HalfKick(params, e.velocity);
      position := Add(position, Scale(velocity, Dt));
      var newAcceleration := Scale(LorentzForceNow(), 1.0 / params.mass);
      velocity := Add(velocity, Scale(newAcceleration, HalfDt));
      assert velocity == HalfKick(params, v1);
      if !energyGained {
        velocity := Scale(Normalize(velocity, lib), currentSpeed);
      }
      time := time + Dt;
    }

    /** updateTrail */
    method UpdateTrail(lib: MathLib)
      modifies this
      ensures frameCount == old(frameCount) + 1
      ensures trail == TrailAfter(old(trail), old(frameCount), Snapshot(), lib)
      ensures Snapshot() == old(Snapshot())
    {
      frameCount := frameCount + 1;
      var speed := Length(velocity, lib);
      var radius := Radius(position, lib);
      var recordFrequency := RecordFrequency(speed, radius);
      assert TrailPoint(position, time, speed, extracted) == TrailPointOf(Snapshot(), lib);
      if frameCount % recordFrequency == 0 {
        trail := trail + [TrailPoint(position, time, speed, extracted)];
        trail := ShiftWhileLonger(trail, TrailCapacity());
      }
    }

    /** animate: nothing while stopped; otherwise the physics frame and then the
        trail, which is updated even on the frame that stops the animation. */
    method Animate(lib: MathLib)
      requires params.mass != 0.0
      modifies this
      ensures !old(animating) ==> Snapshot() == old(Snapshot()) && trail == old(trail) && frameCount == old(frameCount)
      ensures old(animating) ==>
        && Snapshot() == AfterFrame(params, old(Snapshot()), lib)
        && frameCount == old(frameCount) + 1
        && trail == TrailAfter(old(trail), old(frameCount), Snapshot(), lib)
    {
      if !animating {
        return;
      }
      UpdatePhysics(lib);
      UpdateTrail(lib);
    }

    /** resetSimulation: stops, clears the latch, the clock, the detector, the
        trail and the frame counter, and creates the particle afresh. */
    method ResetSimulation()
      requires params.mass != 0.0
      modifies this
      ensures Snapshot() == ResetState(params)
      ensures trail == [] && frameCount == 0
    {
      animating := false;
      time := 0.0;
      extracted := false;
      previousQuadrant := 0;
      lastGapCrossingTime := 0.0;
      trail := [];
      var start := ParticleStart(params);
      position := start.0;
      previousPosition := start.0;
      velocity := start.1;
      frameCount := 0;
    }

    /** The start/stop button: a stopped run starts and takes its first frame
        at once (which may stop it again at the rim); a running one stops and
        keeps its state. */
    method ToggleAnimation(lib: MathLib)
      requires params.mass != 0.0
      modifies this
      ensures old(animating) ==> Snapshot() == old(Snapshot()).(animating := false) && trail == old(trail) && frameCount == old(frameCount)
      ensures !old(animating) ==>
        && Snapshot() == AfterFrame(params, old(Snapshot()).(animating := true), lib)
        && frameCount == old(frameCount) + 1
        && trail == TrailAfter(old(trail), old(frameCount), Snapshot(), lib)
    {
      if !animating {
        animating := true;
        Animate(lib);
      } else {
        animating := false;
      }
    }
  }
}
