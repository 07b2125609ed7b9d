/** The two-body gravity scene of public/scene3.js: two spheres attract with
    F = G m1 m2 / d^2, move by semi-implicit Euler, get a damped, mixed
    velocity and a small push apart when they come closer than two radii,
    and leave trails recorded every second frame. */
module TwoBody {
  import opened Vectors
  import opened Trails

  const MaxTrailLength: nat := 10000
  const RecordEveryNthFrame: nat := 2
  const Dt: real := 0.016
  /** The gravitational constant of the scene. */
  const Gravity: real := 3.0
  const SphereRadius: real := 15.0
  /** The damping factor of a collision. */
  const Bounce: real := 0.5
  const Mass1: real := 10000.0
  const Mass2: real := 10000.0

  /** The positions and velocities of both spheres. */
  datatype Bodies = Bodies(p1: Vec3, p2: Vec3, v1: Vec3, v2: Vec3)

  /** The start: spheres at (-20, 50, 0) and (20, 80, 0), velocities
      (0, 20, 20) and (0, 20, -20). */
  const Start: Bodies := Bodies(Vec3(-20.0, 50.0, 0.0), Vec3(20.0, 80.0, 0.0),
                                Vec3(0.0, 20.0, 20.0), Vec3(0.0, 20.0, -20.0))

  function Distance(p1: Vec3, p2: Vec3, lib: MathLib): real {
    Length(Sub(p1, p2), lib)
  }

  /** The result of acceleration(): both accelerations and the distance. */
  datatype Acceleration = Acceleration(a1: Vec3, a2: Vec3, distance: real)

  lemma SquareNonZero(d: real)
    requires d != 0.0
    ensures d * d != 0.0
  {
    assert d == (d * d) / d;
  }

  /** acceleration(sphere1, sphere2): the force G m1 m2 / d^2 along the unit
      vector from sphere2 to sphere1, taken with a minus sign for sphere1. */
  function GravityAcceleration(p1: Vec3, p2: Vec3, lib: MathLib): Acceleration
    requires Distance(p1, p2, lib) != 0.0
  {
    var r := Sub(p1, p2);
    var distance := Length(r, lib);
    var direction := Normalize(r, lib);
    var forceMagnitude := ForceMagnitude(distance);
    var force := Scale(direction, forceMagnitude);
    Acceleration(Scale(Scale(force, -1.0), 1.0 / Mass1), Scale(force, 1.0 / Mass2), distance)
  }

  /** G m1 m2 / d^2 */
  function ForceMagnitude(d: real): real
    requires d != 0.0
  {
    SquareNonZero(d);
    Gravity * ((Mass1 * Mass2) / (d * d))
  }

  lemma DistancePositive(p1: Vec3, p2: Vec3, lib: MathLib)
    requires Lawful(lib) && p1 != p2
    ensures Distance(p1, p2, lib) > 0.0
  {
    LengthLaw(Sub(p1, p2), lib);
  }

  lemma Coefficient(d: real)
    requires d != 0.0
    ensures d * d != 0.0
    ensures 1.0 / d * (ForceMagnitude(d)) * -1.0 * (1.0 / Mass1)
            == -(Pull(Mass2, d))
    ensures 1.0 / d * (ForceMagnitude(d)) * (1.0 / Mass2)
            == Pull(Mass1, d)
  {
    SquareNonZero(d);
  }

  /** G m / d^3, the factor by which the vector between the spheres is
      scaled into an acceleration. */
  function Pull(m: real, d: real): real
    requires d != 0.0
  {
    Gravity * m * (1.0 / d) * (1.0 / d) * (1.0 / d)
  }

  /** The accelerations are G m / d^3 times the vector towards the other
      sphere, and m1 a1 + m2 a2 = 0: they are equal and opposite. */
  lemma AccelerationForm(p1: Vec3, p2: Vec3, lib: MathLib)
    requires Distance(p1, p2, lib) != 0.0
    ensures var acc := GravityAcceleration(p1, p2, lib);
      var d := acc.distance;
      && d == Distance(p1, p2, lib)
      && acc.a1 == Scale(Sub(p2, p1), Pull(Mass2, d))
      && acc.a2 == Scale(Sub(p1, p2), Pull(Mass1, d))
      && Add(Scale(acc.a1, Mass1), Scale(acc.a2, Mass2)) == Zero
  {
    var d := Distance(p1, p2, lib);
    var c := Pull(Mass2, d);
    Coefficient(d);
    AccelerationScales(p1, p2, lib);
    NegatedScale(p1, p2, c);
    Opposite(Sub(p1, p2), c);
  }

  /** acceleration() as multiples of p1 - p2. */
  lemma AccelerationScales(p1: Vec3, p2: Vec3, lib: MathLib)
    requires Distance(p1, p2, lib) != 0.0
    ensures var d := Distance(p1, p2, lib);
      && GravityAcceleration(p1, p2, lib).a1 == Scale(Sub(p1, p2), -(Pull(Mass2, d)))
      && GravityAcceleration(p1, p2, lib).a2 == Scale(Sub(p1, p2), Pull(Mass1, d))
  {
    var r := Sub(p1, p2);
    var d := Distance(p1, p2, lib);
    var n := Normalize(r, lib);
    assert n == Scale(r, 1.0 / d);
    ScaledForce(r, d, n);
    var force := Scale(n, ForceMagnitude(d));
    assert GravityAcceleration(p1, p2, lib)
        == Acceleration(Scale(Scale(force, -1.0), 1.0 / Mass1), Scale(force, 1.0 / Mass2), d);
  }

  /** The force and accelerations built from the unit vector n = r / d. */
  lemma ScaledForce(r: Vec3, d: real, n: Vec3)
    requires d != 0.0 && n == Scale(r, 1.0 / d)
    ensures d * d != 0.0
    ensures var force := Scale(n, ForceMagnitude(d));
      && Scale(Scale(force, -1.0), 1.0 / Mass1) == Scale(r, -(Pull(Mass2, d)))
      && Scale(force, 1.0 / Mass2) == Scale(r, Pull(Mass1, d))
  {
    Coefficient(d);
    var f := ForceMagnitude(d);
    ScaleChain(r, 1.0 / d, f, 1.0 / Mass1, 1.0 / Mass2, -(Pull(Mass2, d)), Pull(Mass1, d));
  }

  /** Scaling by s, by f, then by -k1 (or by k2) is scaling once by the product. */
  lemma ScaleChain(r: Vec3, s: real, f: real, k1: real, k2: real, c1: real, c2: real)
    requires s * f * -1.0 * k1 == c1 && s * f * k2 == c2
    ensures Scale(Scale(Scale(Scale(r, s), f), -1.0), k1) == Scale(r, c1)
    ensures Scale(Scale(Scale(r, s), f), k2) == Scale(r, c2)
  {
    var sf := s * f;
    ScaleBy(r, s, f, sf);
    var negated := sf * -1.0;
    ScaleBy(r, sf, -1.0, negated);
    ScaleBy(r, negated, k1, c1);
    ScaleBy(r, sf, k2, c2);
  }

  lemma ScaleBy(r: Vec3, a: real, b: real, c: real)
    requires a * b == c
    ensures Scale(Scale(r, a), b) == Scale(r, c)
  {
    ScaleTwice(r, a, b);
  }

  lemma Opposite(r: Vec3, c: real)
    ensures Add(Scale(Scale(r, -c), Mass1), Scale(Scale(r, c), Mass2)) == Zero
  {
  }

  lemma NegatedScale(a: Vec3, b: Vec3, c: real)
    ensures Scale(Sub(a, b), -c) == Scale(Sub(b, a), c)
  {
  }

  /** For separate spheres the distance is positive and sphere1 is pulled
      towards sphere2 (a positive multiple of p2 - p1), sphere2 towards sphere1. */
  lemma GravityLaw(p1: Vec3, p2: Vec3, lib: MathLib)
    requires Lawful(lib) && p1 != p2
    ensures Distance(p1, p2, lib) > 0.0
    ensures var acc := GravityAcceleration(p1, p2, lib);
      var d := acc.distance;
      && d > 0.0
      && Pull(Mass2, d) > 0.0
      && acc.a1 == Scale(Sub(p2, p1), Pull(Mass2, d))
      && acc.a2 == Scale(Sub(p1, p2), Pull(Mass1, d))
  {
    DistancePositive(p1, p2, lib);
    AccelerationForm(p1, p2, lib);
    PullPositive(Mass2, Distance(p1, p2, lib));
  }

  lemma PullPositive(m: real, d: real)
    requires m > 0.0 && d > 0.0
    ensures Pull(m, d) > 0.0
  {
    var i := 1.0 / d;
    assert i > 0.0;
    MulPositive(Gravity * m, i);
    MulPositive(Gravity * m * i, i);
    MulPositive(Gravity * m * i * i, i);
  }

  /** handleCollision, with the in-place updates written out in order: v1 is
      copied, both velocities are halved, v1 gains a tenth of the halved v2,
      v2 a tenth of the copy; the unit vector from sphere2 to sphere1 is
      scaled by 0.1 for sphere1 and, being the same vector, by 0.1 again for
      sphere2. */
  function Collide(b: Bodies, lib: MathLib): Bodies {
    var temp := b.v1;
    var halved1 := Scale(b.v1, Bounce);
    var halved2 := Scale(b.v2, Bounce);
    var v1 := Add(halved1, Scale(halved2, 0.1));
    var v2 := Add(halved2, Scale(temp, 0.1));
    var direction := Normalize(Sub(b.p1, b.p2), lib);
    var once := Scale(direction, 0.1);
    var twice := Scale(once, 0.1);
    Bodies(Add(b.p1, once), Sub(b.p2, twice), v1, v2)
  }

  /** The collision is not symmetric: v1' = 0.5 v1 + 0.05 v2 and
      v2' = 0.5 v2 + 0.1 v1; sphere1 moves 0.1 along the unit vector from
      sphere2 to sphere1 and sphere2 only 0.01 back along it. */
  lemma CollisionRule(b: Bodies, lib: MathLib)
    ensures var c := Collide(b, lib);
      var n := Normalize(Sub(b.p1, b.p2), lib);
      && c.v1 == Add(Scale(b.v1, 0.5), Scale(b.v2, 0.05))
      && c.v2 == Add(Scale(b.v2, 0.5), Scale(b.v1, 0.1))
      && c.p1 == Add(b.p1, Scale(n, 0.1))
      && c.p2 == Sub(b.p2, Scale(n, 0.01))
      && Sub(c.p1, c.p2) == Add(Sub(b.p1, b.p2), Scale(n, 0.11))
  {
  }

  /** A collision pushes separate spheres exactly 0.11 further apart. */
  lemma CollisionSeparates(b: Bodies, lib: MathLib)
    requires Lawful(lib) && b.p1 != b.p2
    ensures Distance(Collide(b, lib).p1, Collide(b, lib).p2, lib) == Distance(b.p1, b.p2, lib) + 0.11
  {
    DistancePositive(b.p1, b.p2, lib);
    LengthLaw(Sub(b.p1, b.p2), lib);
    var d := Distance(b.p1, b.p2, lib);
    var k := 1.0 + 0.11 / d;
    var c := Collide(b, lib);
    SeparationForm(b, lib, d);
    StretchedSquare(k, d);
    var y := k * d;
    var x := LengthSq(Sub(c.p1, c.p2));
    assert x == y * y;
    SqrtOfSquare(lib, y);
    SqrtAt(lib, x, y);
  }

  lemma SqrtAt(lib: MathLib, x: real, y: real)
    requires lib.sqrt(y * y) == y && x == y * y
    ensures lib.sqrt(x) == y
  {
  }

  /** After a collision the spheres are k = 1 + 0.11 / d times their former
      separation apart, whose squared length is (k d)^2 with k d = d + 0.11. */
  lemma SeparationForm(b: Bodies, lib: MathLib, d: real)
    requires d > 0.0 && d == Distance(b.p1, b.p2, lib)
    requires LengthSq(Sub(b.p1, b.p2)) == d * d
    ensures var c := Collide(b, lib);
      LengthSq(Sub(c.p1, c.p2)) == (1.0 + 0.11 / d) * (1.0 + 0.11 / d) * (d * d)
  {
    var r := Sub(b.p1, b.p2);
    var k := 1.0 + 0.11 / d;
    CollisionRule(b, lib);
    assert Normalize(r, lib) == Scale(r, 1.0 / d);
    var c := Collide(b, lib);
    assert Sub(c.p1, c.p2) == Scale(r, k);
    ScaleLengthSq(r, k);
  }

  lemma StretchedSquare(k: real, d: real)
    requires d > 0.0 && k == 1.0 + 0.11 / d
    ensures k * k * (d * d) == (k * d) * (k * d)
    ensures k * d == d + 0.11 && k * d >= 0.0
  {
  }

  /** The total momentum m1 v1 + m2 v2. */
  function Momentum(b: Bodies): Vec3 {
    Add(Scale(b.v1, Mass1), Scale(b.v2, Mass2))
  }

  /** With equal masses a collision turns the momentum m (v1 + v2) into
      m (0.6 v1 + 0.55 v2): it is not conserved. */
  lemma CollisionMomentum(b: Bodies, lib: MathLib)
    ensures Momentum(Collide(b, lib)) == Scale(Add(Scale(b.v1, 0.6), Scale(b.v2, 0.55)), Mass1)
  {
    CollisionRule(b, lib);
  }

  /** applyForce: the accelerations at the current positions, semi-implicit
      Euler for both spheres, and a collision when the distance measured
      before the move is below two radii. */
  function Step(b: Bodies, lib: MathLib): Bodies
    requires Distance(b.p1, b.p2, lib) != 0.0
  {
    var acc := GravityAcceleration(b.p1, b.p2, lib);
    var v1 := Add(b.v1, Scale(acc.a1, Dt));
    var v2 := Add(b.v2, Scale(acc.a2, Dt));
    var moved := Bodies(Add(b.p1, Scale(v1, Dt)), Add(b.p2, Scale(v2, Dt)), v1, v2);
    if acc.distance < 2.0 * SphereRadius then Collide(moved, lib) else moved
  }

  /** A step far enough apart for no collision keeps the total momentum,
      because the two accelerations are equal and opposite. */
  lemma FarStepKeepsMomentum(b: Bodies, lib: MathLib)
    requires Distance(b.p1, b.p2, lib) >= 2.0 * SphereRadius
    ensures Momentum(Step(b, lib)) == Momentum(b)
  {
    AccelerationForm(b.p1, b.p2, lib);
    var acc := GravityAcceleration(b.p1, b.p2, lib);
    var s := Step(b, lib);
    assert s.v1 == Add(b.v1, Scale(acc.a1, Dt));
    assert s.v2 == Add(b.v2, Scale(acc.a2, Dt));
    var z := Add(Scale(acc.a1, Mass1), Scale(acc.a2, Mass2));
    assert Momentum(s) == Add(Momentum(b), Scale(z, Dt));
  }

  /** A step from closer than two radii ends with the collision's mixing of
      the Euler-updated velocities u1, u2 (v1' = 0.5 u1 + 0.05 u2,
      v2' = 0.5 u2 + 0.1 u1), and, when the move left the spheres apart,
      exactly 0.11 further apart than the move alone would have. */
  lemma NearStep(b: Bodies, lib: MathLib)
    requires Lawful(lib) && Distance(b.p1, b.p2, lib) != 0.0
    requires Distance(b.p1, b.p2, lib) < 2.0 * SphereRadius
    ensures var acc := GravityAcceleration(b.p1, b.p2, lib);
      var u1 := Add(b.v1, Scale(acc.a1, Dt));
      var u2 := Add(b.v2, Scale(acc.a2, Dt));
      var q1 := Add(b.p1, Scale(u1, Dt));
      var q2 := Add(b.p2, Scale(u2, Dt));
      var s := Step(b, lib);
      && s.v1 == Add(Scale(u1, 0.5), Scale(u2, 0.05))
      && s.v2 == Add(Scale(u2, 0.5), Scale(u1, 0.1))
      && (q1 != q2 ==> Distance(s.p1, s.p2, lib) == Distance(q1, q2, lib) + 0.11)
  {
    var acc := GravityAcceleration(b.p1, b.p2, lib);
    var u1 := Add(b.v1, Scale(acc.a1, Dt));
    var u2 := Add(b.v2, Scale(acc.a2, Dt));
    var moved := Bodies(Add(b.p1, Scale(u1, Dt)), Add(b.p2, Scale(u2, Dt)), u1, u2);
    assert Step(b, lib) == Collide(moved, lib);
    CollisionRule(moved, lib);
    if moved.p1 != moved.p2 {
      CollisionSeparates(moved, lib);
    }
  }

  /** The module-level state, updated in place. */
  class TwoBodySim {
    var position1: Vec3
    var position2: Vec3
    var velocity1: Vec3
    var velocity2: Vec3
    var trail1: seq<Vec3>
    var trail2: seq<Vec3>
    var frameCount: nat
    var isAnimating: bool

    function Snapshot(): Bodies
      reads this
    {
      Bodies(position1, position2, velocity1, velocity2)
    }

    /** Both trails hold between 2 and 10000 points. */
    predicate Valid()
      reads this
    {
      && 2 <= |trail1| <= MaxTrailLength
      && 2 <= |trail2| <= MaxTrailLength
    }

    /** init: the start positions and velocities and createTrails' two-point trails. */
    constructor ()
      ensures Snapshot() == Start && frameCount == 0 && !isAnimating
      ensures trail1 == [Start.p1, Add(Start.p1, PadOffset)]
      ensures trail2 == [Start.p2, Add(Start.p2, PadOffset)]
      ensures Valid()
    {
      position1 := Vec3(-20.0, 50.0, 0.0);
      position2 := Vec3(20.0, 80.0, 0.0);
      velocity1 := Vec3(0.0, 20.0, 20.0);
      velocity2 := Vec3(0.0, 20.0, -20.0);
      trail1 := [Vec3(-20.0, 50.0, 0.0), Add(Vec3(-20.0, 50.0, 0.0), PadOffset)];
      trail2 := [Vec3(20.0, 80.0, 0.0), Add(Vec3(20.0, 80.0, 0.0), PadOffset)];
      frameCount := 0;
      isAnimating := false;
    }

    /** handleCollision */
    method HandleCollision(lib: MathLib)
      modifies this
      ensures Snapshot() == Collide(old(Snapshot()), lib)
      ensures trail1 == old(trail1) && trail2 == old(trail2)
      ensures frameCount == old(frameCount) && isAnimating == old(isAnimating)
    {
      var temp := velocity1;
      velocity1 := Scale(velocity1, Bounce);
      velocity2 := Scale(velocity2, Bounce);
      velocity1 := Add(velocity1, Scale(velocity2, 0.1));
      temp := Scale(temp, 0.1);
      velocity2 := Add(velocity2, temp);

      var direction := Normalize(Sub(position1, position2), lib);
      direction := Scale(direction, 0.1);
      position1 := Add(position1, direction);
      direction := Scale(direction, 0.1);
      position2 := Sub(position2, direction);
    }

    /** applyForce */
    method ApplyForce(lib: MathLib)
      requires Distance(position1, position2, lib) != 0.0
      modifies this
      ensures Snapshot() == Step(old(Snapshot()), lib)
      ensures trail1 == old(trail1) && trail2 == old(trail2)
      ensures frameCount == old(frameCount) && isAnimating == old(isAnimating)
    {
      var acc := GravityAcceleration(position1, position2, lib);
      velocity1 := Add(velocity1, Scale(acc.a1, Dt));
      velocity2 := Add(velocity2, Scale(acc.a2, Dt));
      position1 := Add(position1, Scale(velocity1, Dt));
      position2 := Add(position2, Scale(velocity2, Dt));
      if acc.distance < SphereRadius * 2.0 {
        HandleCollision(lib);
      }
    }

    /** updateTrails: both trails record the current positions every second frame. */
    method UpdateTrails()
      requires Valid()
      modifies this
      ensures Valid()
      ensures frameCount == old(frameCount) + 1
      ensures trail1 == RecordEveryNth(old(trail1), old(frameCount), position1, RecordEveryNthFrame, MaxTrailLength)
      ensures trail2 == RecordEveryNth(old(trail2), old(frameCount), position2, RecordEveryNthFrame, MaxTrailLength)
      ensures Snapshot() == old(Snapshot()) && isAnimating == old(isAnimating)
    {
      RecordEveryNthBounded(trail1, frameCount, position1, RecordEveryNthFrame, MaxTrailLength);
      RecordEveryNthBounded(trail2, frameCount, position2, RecordEveryNthFrame, MaxTrailLength);
      frameCount := frameCount + 1;
      if frameCount % RecordEveryNthFrame == 0 {
        trail1 := Record(trail1, position1, MaxTrailLength);
        trail2 := Record(trail2, position2, MaxTrailLength);
      }
    }

    /** animate: nothing while stopped, otherwise one step and the trails. */
    method Animate(lib: MathLib)
      requires Valid()
      requires isAnimating ==> Distance(position1, position2, lib) != 0.0
      modifies this
      ensures Valid() && isAnimating == old(isAnimating)
      ensures !old(isAnimating) ==>
        Snapshot() == old(Snapshot()) && trail1 == old(trail1) && trail2 == old(trail2) && frameCount == old(frameCount)
      ensures old(isAnimating) ==>
        && Snapshot() == Step(old(Snapshot()), lib)
        && frameCount == old(frameCount) + 1
        && trail1 == RecordEveryNth(old(trail1), old(frameCount), position1, RecordEveryNthFrame, MaxTrailLength)
        && trail2 == RecordEveryNth(old(trail2), old(frameCount), position2, RecordEveryNthFrame, MaxTrailLength)
    {
      if !isAnimating {
        return;
      }
      ApplyForce(lib);
      UpdateTrails();
    }

    /** The button: a stopped scene starts and runs its first frame at once; a running one stops. */
    method ToggleAnimation(lib: MathLib)
      requires Valid()
      requires !isAnimating ==> Distance(position1, position2, lib) != 0.0
      modifies this
      ensures Valid() && isAnimating == !old(isAnimating)
      ensures old(isAnimating) ==>
        Snapshot() == old(Snapshot()) && trail1 == old(trail1) && trail2 == old(trail2) && frameCount == old(frameCount)
      ensures !old(isAnimating) ==>
        && Snapshot() == Step(old(Snapshot()), lib)
        && frameCount == old(frameCount) + 1
        && trail1 == RecordEveryNth(old(trail1), old(frameCount), position1, RecordEveryNthFrame, MaxTrailLength)
        && trail2 == RecordEveryNth(old(trail2), old(frameCount), position2, RecordEveryNthFrame, MaxTrailLength)
    {
      if !isAnimating {
        isAnimating := true;
        Animate(lib);
      } else {
        isAnimating := false;
      }
    }
  }
}
