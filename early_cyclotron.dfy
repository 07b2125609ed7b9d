/** The earlier cyclotron of src/scene4.js: a component-wise Lorentz force
    for B along y, an electric kick along x that fires in the gap at most once
    per time unit, semi-implicit Euler steps, and a trail that is recorded
    every second frame. */
module EarlyCyclotron {
  import opened Vectors
  import opened Trails

  const M: real := 1.0
  const Q: real := 1.0
  const B: real := 1.0
  const E: real := 2.0
  const StartRadius: real := 5.0
  const Dt: real := 0.016
  /** Time between electric impulses. */
  const EFieldInterval: real := 1.0
  const MaxTrailLength: nat := 10000
  const RecordEveryNthFrame: nat := 2
  /** Math.PI */
  const Pi: real := 3.141592653589793

  /** The particle's position and velocity, and timeSinceLastEField. */
  datatype State = State(position: Vec3, velocity: Vec3, timer: real)

  /** calculateMagneticForce: q (v x B) with B = (0, B, 0), written out by components. */
  function MagneticForce(v: Vec3): (f: Vec3)
    ensures f.y == 0.0
    ensures f.x == -Q * B * v.z && f.z == Q * B * v.x
    ensures Dot(f, v) == 0.0
  {
    var field := Vec3(0.0, B, 0.0);
    Vec3(Q * (v.y * field.z - v.z * field.y),
         Q * (v.z * field.x - v.x * field.z),
         Q * (v.x * field.y - v.y * field.x))
  }

  /** Math.sign */
  function Sign(x: real): (r: real)
    ensures r == 1.0 || r == 0.0 || r == -1.0
    ensures r * x == Abs(x)
    ensures r == 0.0 <==> x == 0.0
  {
    if x > 0.0 then 1.0 else if x < 0.0 then -1.0 else 0.0
  }

  /** The angle of the position in the xz-plane, atan2(z, x). */
  function Angle(pos: Vec3, lib: MathLib): real {
    lib.atan2(pos.z, pos.x)
  }

  /** isInGap: the angle lies within 0.1 of +pi/2 or -pi/2. */
  predicate InGap(angle: real) {
    Abs(Abs(angle) - Pi / 2.0) < 0.1
  }

  /** Whether calculateElectricForce fires for this state. */
  predicate Fires(s: State, lib: MathLib) {
    InGap(Angle(s.position, lib)) && s.timer > EFieldInterval
  }

  /** calculateElectricForce: the force and the new timer. */
  function ElectricForce(s: State, lib: MathLib): (Vec3, real) {
    if Fires(s, lib) then
      var direction := Sign(lib.cos(Angle(s.position, lib)));
      (Scale(Vec3(E * direction, 0.0, 0.0), Q), 0.0)
    else (Zero, s.timer)
  }

  /** The impulse is q E sign(cos angle) along x: no y or z part, magnitude
      at most |q E|, and zero when the cosine is exactly zero. Firing resets
      the timer; otherwise the force is zero and the timer is kept. */
  lemma ElectricForceShape(s: State, lib: MathLib)
    ensures var (f, timer) := ElectricForce(s, lib);
      && f.y == 0.0 && f.z == 0.0
      && Abs(f.x) <= Abs(Q * E)
      && (Fires(s, lib) ==> timer == 0.0 && f.x == Q * E * Sign(lib.cos(Angle(s.position, lib))))
      && (Fires(s, lib) && lib.cos(Angle(s.position, lib)) == 0.0 ==> f == Zero)
      && (!Fires(s, lib) ==> f == Zero && timer == s.timer)
  {
  }

  /** applyForce: v' = v + (F/m) dt, then x' = x + v' dt with the new
      velocity, then the timer advances by dt. */
  function Step(s: State, lib: MathLib): State {
    var (electric, timer) := ElectricForce(s, lib);
    var force := Add(MagneticForce(s.velocity), electric);
    var acceleration := Scale(force, 1.0 / M);
    var velocity := Add(s.velocity, Scale(acceleration, Dt));
    State(Add(s.position, Scale(velocity, Dt)), velocity, timer + Dt)
  }

  /** Semi-implicit Euler: the position moves with the updated velocity, and
      the timer is dt after a firing step and grows by dt otherwise. */
  lemma StepLaw(s: State, lib: MathLib)
    ensures var r := Step(s, lib);
      var f := Add(MagneticForce(s.velocity), ElectricForce(s, lib).0);
      && r.velocity == Add(s.velocity, Scale(f, Dt / M))
      && r.position == Add(s.position, Scale(r.velocity, Dt))
      && r.timer == (if Fires(s, lib) then Dt else s.timer + Dt)
  {
  }

  /** Without an impulse a step only turns the velocity (to first order) about y:
      its y-component is kept. */
  lemma QuietStepKeepsY(s: State, lib: MathLib)
    requires !Fires(s, lib)
    ensures Step(s, lib).velocity.y == s.velocity.y
  {
  }

  function Steps(s: State, n: nat, lib: MathLib): State
    decreases n
  {
    if n == 0 then s else Steps(Step(s, lib), n - 1, lib)
  }

  /** Whether any of the first n steps from s fires. */
  predicate AnyFires(s: State, n: nat, lib: MathLib)
    decreases n
  {
    n > 0 && (Fires(s, lib) || AnyFires(Step(s, lib), n - 1, lib))
  }

  /** While the timer cannot pass the interval, nothing fires and the timer
      grows by exactly dt per step. */
  lemma {:induction false} Quiet(s: State, n: nat, lib: MathLib)
    requires n > 0 ==> s.timer + (n - 1) as real * Dt <= EFieldInterval
    ensures !AnyFires(s, n, lib)
    ensures Steps(s, n, lib).timer == s.timer + n as real * Dt
    decreases n
  {
    if n > 0 {
      assert !Fires(s, lib);
      var s1 := Step(s, lib);
      assert s1.timer == s.timer + Dt;
      assert n - 1 > 0 ==> s1.timer + (n - 2) as real * Dt <= EFieldInterval;
      Quiet(s1, n - 1, lib);
    }
  }

  /** The initial timer is 0, so no impulse fires during the first time unit:
      the first 63 steps (62 dt = 0.992) are quiet. */
  lemma NoImpulseInFirstTimeUnit(s: State, lib: MathLib)
    requires s.timer == 0.0
    ensures !AnyFires(s, 63, lib)
  {
    Quiet(s, 63, lib);
  }

  /** After an impulse the next one is more than one time unit away: the 62
      steps after a firing step are quiet. */
  lemma ImpulsesSpaced(s: State, lib: MathLib)
    requires Fires(s, lib)
    ensures s.timer > EFieldInterval
    ensures !AnyFires(Step(s, lib), 62, lib)
  {
    StepLaw(s, lib);
    Quiet(Step(s, lib), 62, lib);
  }

  /** The start position (R, 0, 0) and velocity (0, 0, q B R / m). */
  function Start(): (s: State)
    ensures s.position == Vec3(StartRadius, 0.0, 0.0)
    ensures s.velocity == Vec3(0.0, 0.0, Q * B * StartRadius / M)
    ensures s.timer == 0.0
  {
    State(Vec3(StartRadius, 0.0, 0.0), Vec3(0.0, 0.0, (Q * B * StartRadius) / M), 0.0)
  }

  /** createTrail: the start point and its offset copy. */
  function InitialTrail(p: Vec3): (t: seq<Vec3>)
    ensures |t| == 2 && t[0] == p && t[1] == Add(p, PadOffset)
  {
    [p, Add(p, PadOffset)]
  }

  /** The module-level variables, updated in place. */
  class EarlyCyclotronSim {
    var position: Vec3
    var velocity: Vec3
    var timeSinceLastEField: real
    var trail: seq<Vec3>
    var frameCount: nat
    var animating: bool

    function Snapshot(): State
      reads this
    {
      State(position, velocity, timeSinceLastEField)
    }

    /** Trail length stays within its bounds. */
    predicate Valid()
      reads this
    {
      2 <= |trail| <= MaxTrailLength
    }

    /** init: the particle at its start and a two-point trail. */
    constructor ()
      ensures Snapshot() == Start()
      ensures trail == InitialTrail(Start().position) && frameCount == 0 && !animating
      ensures Valid()
    {
      var start := Start();
      position := start.position;
      velocity := start.velocity;
      timeSinceLastEField := 0.0;
      trail := [start.position, Add(start.position, PadOffset)];
      frameCount := 0;
      animating := false;
    }

    /** calculateElectricForce: returns the force and resets the timer when it fires. */
    method CalculateElectricForce(lib: MathLib) returns (f: Vec3)
      modifies this
      ensures (f, timeSinceLastEField) == ElectricForce(old(Snapshot()), lib)
      ensures position == old(position) && velocity == old(velocity)
      ensures trail == old(trail) && frameCount == old(frameCount) && animating == old(animating)
    {
      var angleFromX := Angle(position, lib);
      var isInGap := Abs(Abs(angleFromX) - Pi / 2.0) < 0.1;
      if isInGap && timeSinceLastEField > EFieldInterval {
        timeSinceLastEField := 0.0;
        var direction := Sign(lib.cos(angleFromX));
        return Scale(Vec3(E * direction, 0.0, 0.0), Q);
      }
      return Zero;
    }

    /** applyForce */
    method ApplyForce(lib: MathLib)
      modifies this
      ensures Snapshot() == Step(old(Snapshot()), lib)
      ensures trail == old(trail) && frameCount == old(frameCount) && animating == old(animating)
    {
      var magneticForce := MagneticForce(velocity);
      var electricForce := CalculateElectricForce(lib);
      var force := Add(magneticForce, electricForce);
      var acceleration := Scale(force, 1.0 / M);
      velocity := Add(velocity, Scale(acceleration, Dt));
      position := Add(position, Scale(velocity, Dt));
      timeSinceLastEField := timeSinceLastEField + Dt;
    }

    /** updateTrail */
    method UpdateTrail()
      requires Valid()
      modifies this
      ensures Valid()
      ensures frameCount == old(frameCount) + 1
      ensures trail == RecordEveryNth(old(trail), old(frameCount), position, RecordEveryNthFrame, MaxTrailLength)
      ensures Snapshot() == old(Snapshot()) && animating == old(animating)
    {
      RecordEveryNthBounded(trail, frameCount, position, RecordEveryNthFrame, MaxTrailLength);
      frameCount := frameCount + 1;
      if frameCount % RecordEveryNthFrame == 0 {
        trail := Record(trail, position, MaxTrailLength);
      }
    }

    /** animate: nothing while stopped, otherwise one step and the trail. */
    method Animate(lib: MathLib)
      requires Valid()
      modifies this
      ensures Valid() && animating == old(animating)
      ensures !old(animating) ==> Snapshot() == old(Snapshot()) && trail == old(trail) && frameCount == old(frameCount)
      ensures old(animating) ==>
        && Snapshot() == Step(old(Snapshot()), lib)
        && frameCount == old(frameCount) + 1
        && trail == RecordEveryNth(old(trail), old(frameCount), position, RecordEveryNthFrame, MaxTrailLength)
    {
      if !animating {
        return;
      }
      ApplyForce(lib);
      UpdateTrail();
    }

    /** The start/stop button: a stopped run starts and takes its first frame
        at once; a running one stops and keeps its state. */
    method ToggleAnimation(lib: MathLib)
      requires Valid()
      modifies this
      ensures Valid()
      ensures animating == !old(animating)
      ensures old(animating) ==> Snapshot() == old(Snapshot()) && trail == old(trail) && frameCount == old(frameCount)
      ensures !old(animating) ==>
        && Snapshot() == Step(old(Snapshot()), lib)
        && frameCount == old(frameCount) + 1
        && trail == RecordEveryNth(old(trail), old(frameCount), position, RecordEveryNthFrame, MaxTrailLength)
    {
      if !animating {
        animating := true;
        Animate(lib);
      } else {
        animating := false;
      }
    }
  }
}
