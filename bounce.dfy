/** The bouncing-spheres scene of public/scene2.js: two spheres fall under
    gravity by semi-implicit Euler steps and bounce off the floor y = 0,
    each by the same rule and independently of the other. */
module Bounce {
  import opened Vectors

  const GravityVector: Vec3 := Vec3(0.0, -9.81, 0.0)
  const Dt: real := 0.016
  /** The damping of the vertical speed at a bounce. */
  const BounceFactor: real := 0.8
  const SphereRadius: real := 15.0
  const FloorLevel: real := 0.0
  /** The height of a sphere's centre when it rests on the floor. */
  const RestHeight: real := FloorLevel + SphereRadius

  /** One sphere's position and velocity. */
  datatype Ball = Ball(position: Vec3, velocity: Vec3)

  /** The start: both at rest, at (-20, 50, 0) and (20, 80, 0). */
  const Start1: Ball := Ball(Vec3(-20.0, 50.0, 0.0), Zero)
  const Start2: Ball := Ball(Vec3(20.0, 80.0, 0.0), Zero)

  /** Whether the sphere, moved with its new velocity, reaches below the floor. */
  predicate Contact(b: Ball) {
    var velocity := Add(b.velocity, Scale(GravityVector, Dt));
    Add(b.position, Scale(velocity, Dt)).y - SphereRadius < FloorLevel
  }

  /** One sphere's part of animate: gravity into the velocity, the velocity
      into the position, then the floor check, which puts the sphere on the
      floor and reverses and damps its vertical speed. */
  function Fall(b: Ball): Ball {
    var velocity := Add(b.velocity, Scale(GravityVector, Dt));
    var position := Add(b.position, Scale(velocity, Dt));
    if position.y - SphereRadius < FloorLevel then
      Ball(position.(y := FloorLevel + SphereRadius), velocity.(y := -velocity.y * BounceFactor))
    else Ball(position, velocity)
  }

  /** Gravity leaves the horizontal velocity alone, and the sphere moves
      horizontally with it. */
  lemma FallHorizontal(b: Ball)
    ensures Fall(b).velocity.x == b.velocity.x && Fall(b).velocity.z == b.velocity.z
    ensures Fall(b).position.x == b.position.x + b.velocity.x * Dt
    ensures Fall(b).position.z == b.position.z + b.velocity.z * Dt
  {
    var velocity := Add(b.velocity, Scale(GravityVector, Dt));
    assert velocity.x == b.velocity.x && velocity.z == b.velocity.z;
  }

  /** Gravity lowers the vertical speed by 9.81 dt and the height moves with
      the lowered speed; on contact the height is put at 15 instead and the
      lowered vertical speed is reversed and damped by 0.8. */
  lemma FallVertical(b: Ball)
    ensures var vy := b.velocity.y - 9.81 * Dt;
      && (Contact(b) <==> b.position.y + vy * Dt < RestHeight)
      && (!Contact(b) ==> Fall(b).velocity.y == vy && Fall(b).position.y == b.position.y + vy * Dt)
      && (Contact(b) ==> Fall(b).position.y == RestHeight && Fall(b).velocity.y == -BounceFactor * vy)
  {
    var velocity := Add(b.velocity, Scale(GravityVector, Dt));
    assert velocity.y == b.velocity.y - 9.81 * Dt;
  }

  /** After every step the sphere is at or above the floor: y >= 15. */
  lemma StaysAboveFloor(b: Ball)
    ensures Fall(b).position.y >= RestHeight
  {
  }

  /** A sphere that starts a step on or above the floor and touches it was
      moving down, and leaves the step moving up more slowly. */
  lemma BounceReverses(b: Ball)
    requires b.position.y >= RestHeight && Contact(b)
    ensures var vy := b.velocity.y - 9.81 * Dt;
      && vy < 0.0
      && Fall(b).velocity.y > 0.0
      && Fall(b).velocity.y <= -vy
  {
  }

  /** Any number of steps keeps the horizontal velocity exactly. */
  lemma {:induction false} HorizontalUnchanged(b: Ball, n: nat)
    ensures Steps(b, n).velocity.x == b.velocity.x && Steps(b, n).velocity.z == b.velocity.z
    decreases n
  {
    if n > 0 {
      HorizontalUnchanged(Fall(b), n - 1);
    }
  }

  function Steps(b: Ball, n: nat): Ball
    decreases n
  {
    if n == 0 then b else Steps(Fall(b), n - 1)
  }

  /** The two spheres in their module-level variables, updated in place. */
  class BounceSim {
    var position1: Vec3
    var velocity1: Vec3
    var position2: Vec3
    var velocity2: Vec3
    var isAnimating: bool

    function Ball1(): Ball
      reads this
    {
      Ball(position1, velocity1)
    }

    function Ball2(): Ball
      reads this
    {
      Ball(position2, velocity2)
    }

    /** Both spheres are at or above the floor. */
    predicate Valid()
      reads this
    {
      position1.y >= RestHeight && position2.y >= RestHeight
    }

    /** init: both spheres at rest above the floor, not animating. */
    constructor ()
      ensures Ball1() == Start1 && Ball2() == Start2 && !isAnimating
      ensures Valid()
    {
      position1 := Vec3(-20.0, 50.0, 0.0);
      velocity1 := Vec3(0.0, 0.0, 0.0);
      position2 := Vec3(20.0, 80.0, 0.0);
      velocity2 := Vec3(0.0, 0.0, 0.0);
      isAnimating := false;
    }

    /** animate: nothing while stopped; otherwise both spheres take their
        own step by the same rule. */
    method Animate()
      modifies this
      ensures isAnimating == old(isAnimating)
      ensures !old(isAnimating) ==> Ball1() == old(Ball1()) && Ball2() == old(Ball2())
      ensures old(isAnimating) ==> Ball1() == Fall(old(Ball1())) && Ball2() == Fall(old(Ball2()))
      ensures old(isAnimating) ==> Valid()
      ensures old(Valid()) ==> Valid()
    {
      if !isAnimating {
        return;
      }
      velocity1 := Add(velocity1, Scale(GravityVector, Dt));
      position1 := Add(position1, Scale(velocity1, Dt));
      if position1.y - SphereRadius < FloorLevel {
        position1 := position1.(y := FloorLevel + SphereRadius);
        velocity1 := velocity1.(y := -velocity1.y * BounceFactor);
      }

      velocity2 := Add(velocity2, Scale(GravityVector, Dt));
      position2 := Add(position2, Scale(velocity2, Dt));
      if position2.y - SphereRadius < FloorLevel {
        position2 := position2.(y := FloorLevel + SphereRadius);
        velocity2 := velocity2.(y := -velocity2.y * BounceFactor);
      }
    }

    /** The button: a stopped scene starts and runs its first frame at once; a running one stops. */
    method ToggleAnimation()
      modifies this
      ensures isAnimating == !old(isAnimating)
      ensures old(isAnimating) ==> Ball1() == old(Ball1()) && Ball2() == old(Ball2())
      ensures !old(isAnimating) ==> Ball1() == Fall(old(Ball1())) && Ball2() == Fall(old(Ball2())) && Valid()
    {
      if !isAnimating {
        isAnimating := true;
        Animate();
      } else {
        isAnimating := false;
      }
    }
  }
}
