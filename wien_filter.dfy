/** The Wien velocity filter of public/wienscher_geschwindigkeitsfilter.js:
    a charge moves through crossed fields (E along y, B along z); only the
    speed E/B passes straight.  Each animation frame is an explicit Euler
    step, and a particle that leaves the box |x| <= 8, |y| <= 25, |z| <= 25 is
    put back at the electron gun. */
module WienFilter {
  import opened Vectors

  const Dt: real := 0.01
  /** The factor the forces are scaled by to make their effect visible. */
  const ForceScale: real := 2.0
  const Gravity: real := 9.81
  const XBound: real := 8.0
  const YZBound: real := 25.0
  /** Where resetParticle puts the particle. */
  const GunPosition: Vec3 := Vec3(-8.0, 0.0, 0.0)

  /** The module-level parameters. */
  datatype Params = Params(eField: real, bField: real, speed: real, charge: real, useGravity: bool)

  const DefaultParams: Params := Params(5.0, 2.0, 5.0, -1.0, false)

  /** The electric part of the acceleration, 2 q E along y. */
  function ElectricAcceleration(p: Params): Vec3 {
    Vec3(0.0, p.eField * p.charge * ForceScale, 0.0)
  }

  /** The magnetic part, 2 q (v x B) with B = (0, 0, B). */
  function MagneticAcceleration(p: Params, v: Vec3): Vec3 {
    Scale(Cross(v, Vec3(0.0, 0.0, p.bField)), p.charge * ForceScale)
  }

  /** calculateAcceleration */
  function Acceleration(p: Params, v: Vec3): Vec3 {
    var total := Add(ElectricAcceleration(p), MagneticAcceleration(p, v));
    if p.useGravity then total.(y := total.y - Gravity * ForceScale) else total
  }

  /** Written out: a = (2 q B v_y, 2 q (E - B v_x) - [2 g], 0); the magnetic
      part is perpendicular to v, and the z-component is always zero. */
  lemma AccelerationLaw(p: Params, v: Vec3)
    ensures var a := Acceleration(p, v);
      var g := if p.useGravity then Gravity * ForceScale else 0.0;
      && a.x == 2.0 * p.charge * p.bField * v.y
      && a.y == 2.0 * p.charge * (p.eField - p.bField * v.x) - g
      && a.z == 0.0
    ensures Dot(MagneticAcceleration(p, v), v) == 0.0
  {
  }

  /** The balance speed: without gravity and with B != 0, v = (E/B, 0, 0)
      feels no force at all; conversely, for q != 0 a zero force (without
      gravity) means v_y = 0 and v_x = E/B. */
  lemma Balance(p: Params, v: Vec3)
    requires !p.useGravity && p.bField != 0.0
    ensures v == Vec3(p.eField / p.bField, 0.0, 0.0) ==> Acceleration(p, v) == Zero
    ensures p.charge != 0.0 && Acceleration(p, v) == Zero ==> v.y == 0.0 && v.x == p.eField / p.bField
  {
    AccelerationLaw(p, v);
    var a := Acceleration(p, v);
    if v == Vec3(p.eField / p.bField, 0.0, 0.0) {
      BalanceAlgebra(p.charge, p.bField, p.eField);
    }
    if p.charge != 0.0 && a == Zero {
      ZeroForceAlgebra(p.charge, p.bField, p.eField, v.x, v.y);
    }
  }

  /** At v = (E/B, 0, 0) both components of the force vanish. */
  lemma BalanceAlgebra(q: real, b: real, e: real)
    requires b != 0.0
    ensures 2.0 * q * b * 0.0 == 0.0
    ensures 2.0 * q * (e - b * (e / b)) == 0.0
  {
    assert b * (e / b) == e;
  }

  /** A vanishing force with q, B != 0 pins v_y to 0 and v_x to E/B. */
  lemma ZeroForceAlgebra(q: real, b: real, e: real, vx: real, vy: real)
    requires q != 0.0 && b != 0.0
    requires 2.0 * q * b * vy == 0.0 && 2.0 * q * (e - b * vx) == 0.0
    ensures vy == 0.0 && vx == e / b
  {
    assert 2.0 * q * (b * vy) == 0.0;
    NonZeroFactor(2.0 * q, b * vy);
    NonZeroFactor(b, vy);
    NonZeroFactor(2.0 * q, e - b * vx);
    assert b * vx == e;
  }

  lemma NonZeroFactor(a: real, b: real)
    requires a != 0.0 && a * b == 0.0
    ensures b == 0.0
  {
    assert b == (a * b) / a;
  }

  /** The ideal speed shown on the page, |E / B|. */
  function IdealVelocity(p: Params): real
    requires p.bField != 0.0
  {
    Abs(p.eField / p.bField)
  }

  /** The ideal speed is non-negative, |E| / |B|, and is the speed of the balance velocity. */
  lemma IdealVelocityLaw(p: Params)
    requires p.bField != 0.0
    ensures IdealVelocity(p) >= 0.0
    ensures IdealVelocity(p) * Abs(p.bField) == Abs(p.eField)
    ensures IdealVelocity(p) == p.eField / p.bField || IdealVelocity(p) == -(p.eField / p.bField)
  {
    var r := p.eField / p.bField;
    assert r * p.bField == p.eField;
  }

  /** The particle's position and velocity. */
  datatype Particle = Particle(position: Vec3, velocity: Vec3)

  /** resetParticle: back at the gun, moving along x at the set speed. */
  function Reset(p: Params): (r: Particle)
    ensures r.position == GunPosition && r.velocity == Vec3(p.speed, 0.0, 0.0)
  {
    Particle(GunPosition, Vec3(p.speed, 0.0, 0.0))
  }

  predicate InBounds(pos: Vec3) {
    Abs(pos.x) <= XBound && Abs(pos.y) <= YZBound && Abs(pos.z) <= YZBound
  }

  /** The Euler step of animate: v' = v + a dt, then x' = x + v' dt. */
  function Move(p: Params, s: Particle): Particle {
    var velocity := Add(s.velocity, Scale(Acceleration(p, s.velocity), Dt));
    Particle(Add(s.position, Scale(velocity, Dt)), velocity)
  }

  /** One animation frame: the step and the out-of-bounds reset. */
  function Frame(p: Params, s: Particle): Particle {
    var moved := Move(p, s);
    if !InBounds(moved.position) then Reset(p) else moved
  }

  /** After every frame the particle is inside the box; it was reset exactly
      when the step would have left the box. */
  lemma FrameStaysInBounds(p: Params, s: Particle)
    ensures InBounds(Frame(p, s).position)
    ensures Frame(p, s) == Reset(p) || Frame(p, s) == Move(p, s)
    ensures !InBounds(Move(p, s).position) <==> Frame(p, s) == Reset(p) && Move(p, s) != Reset(p)
  {
  }

  /** At the balance velocity (no gravity) the particle flies straight on:
      its velocity is unchanged and it moves by v dt, unless it left the box. */
  lemma BalancedFliesStraight(p: Params, s: Particle)
    requires !p.useGravity && p.bField != 0.0
    requires s.velocity == Vec3(p.eField / p.bField, 0.0, 0.0)
    ensures Move(p, s) == Particle(Add(s.position, Scale(s.velocity, Dt)), s.velocity)
  {
    Balance(p, s.velocity);
  }

  /** updateFieldPolarities: the y of the positive and the negative plate, and
      whether the field arrows point up. */
  function Plates(eField: real): (r: (real, real, bool))
    ensures r.0 == -r.1 && (r.0 == 5.0 || r.0 == -5.0)
    ensures r.2 <==> eField >= 0.0
    ensures r.0 < 0.0 <==> eField >= 0.0
  {
    if eField >= 0.0 then (-5.0, 5.0, true) else (5.0, -5.0, false)
  }

  /** A typed value moves the slider only when it lies in the slider's range. */
  function SliderAfter(lo: real, hi: real, slider: real, v: real): (r: real)
    requires lo <= hi
    ensures lo <= v <= hi ==> r == v
    ensures !(lo <= v <= hi) ==> r == slider
  {
    if v >= lo && v <= hi then v else slider
  }

  /** So a slider that starts inside its range stays inside it, whatever is typed. */
  lemma SliderStaysInRange(lo: real, hi: real, slider: real, v: real)
    requires lo <= hi && lo <= slider <= hi
    ensures lo <= SliderAfter(lo, hi, slider, v) <= hi
  {
  }

  /** The four parameters a slider and a number field control. */
  datatype Input = EFieldInput | BFieldInput | SpeedInput | ChargeInput

  /** The slider ranges of the page. */
  function Range(i: Input): (r: (real, real))
    ensures r.0 <= r.1
  {
    match i
    case EFieldInput => (-15.0, 15.0)
    case BFieldInput => (-15.0, 15.0)
    case SpeedInput => (0.5, 15.0)
    case ChargeInput => (-3.0, 3.0)
  }

  /** The parameters with one input set to v. */
  function SetInput(p: Params, i: Input, v: real): Params {
    match i
    case EFieldInput => p.(eField := v)
    case BFieldInput => p.(bField := v)
    case SpeedInput => p.(speed := v)
    case ChargeInput => p.(charge := v)
  }

  /** The simulation's module-level variables. */
  class WienFilterSim {
    var params: Params
    var position: Vec3
    var velocity: Vec3
    var isAnimating: bool
    /** The slider positions, by input. */
    var sliders: map<Input, real>
    /** The y of the positive plate, of the negative plate, and the arrow direction. */
    var plates: (real, real, bool)

    function Snapshot(): Particle
      reads this
    {
      Particle(position, velocity)
    }

    /** Every slider exists and sits in its range. */
    predicate Valid()
      reads this
    {
      forall i: Input :: i in sliders && Range(i).0 <= sliders[i] <= Range(i).1
    }

    /** init: the default parameters, the plates for E = 5, the particle at the gun. */
    constructor ()
      ensures Valid()
      ensures params == DefaultParams && !isAnimating
      ensures plates == Plates(DefaultParams.eField)
      ensures Snapshot() == Reset(DefaultParams)
      ensures sliders == map[EFieldInput := 5.0, BFieldInput := 2.0, SpeedInput := 5.0, ChargeInput := -1.0]
    {
      params := DefaultParams;
      isAnimating := false;
      sliders := map[EFieldInput := 5.0, BFieldInput := 2.0, SpeedInput := 5.0, ChargeInput := -1.0];
      plates := Plates(DefaultParams.eField);
      position := GunPosition;
      velocity := Vec3(DefaultParams.speed, 0.0, 0.0);
      new;
      forall i: Input
        ensures i in sliders && Range(i).0 <= sliders[i] <= Range(i).1
      {
        match i
        case EFieldInput =>
        case BFieldInput =>
        case SpeedInput =>
        case ChargeInput =>
      }
    }

    /** resetParticle */
    method ResetParticle()
      modifies this
      ensures Snapshot() == Reset(params)
      ensures params == old(params) && isAnimating == old(isAnimating)
      ensures sliders == old(sliders) && plates == old(plates)
    {
      position := GunPosition;
      velocity := Vec3(params.speed, 0.0, 0.0);
    }

    /** updateFieldPolarities */
    method UpdateFieldPolarities()
      modifies this
      ensures plates == Plates(params.eField)
      ensures Snapshot() == old(Snapshot()) && params == old(params)
      ensures isAnimating == old(isAnimating) && sliders == old(sliders)
    {
      if params.eField >= 0.0 {
        plates := (-5.0, 5.0, true);
      } else {
        plates := (5.0, -5.0, false);
      }
    }

    /** animate: nothing while stopped, else one frame. */
    method Animate()
      modifies this
      ensures !old(isAnimating) ==> Snapshot() == old(Snapshot())
      ensures old(isAnimating) ==> Snapshot() == Frame(params, old(Snapshot()))
      ensures old(isAnimating) ==> InBounds(position)
      ensures params == old(params) && isAnimating == old(isAnimating)
      ensures sliders == old(sliders) && plates == old(plates)
    {
      if !isAnimating {
        return;
      }
      var before := Snapshot();
      // The Euler step: v += a dt, then x += v dt.
      var moved := Move(params, before);
      velocity := moved.velocity;
      position := moved.position;
      if !InBounds(moved.position) {
        ResetParticle();
        assert Snapshot() == Reset(params);
      } else {
        assert Snapshot() == moved;
      }
      FrameStaysInBounds(params, before);
    }

    /** Moving a slider (its value lies in its range): the parameter takes the
        value, the plates follow E, and the particle is reset. */
    method Slide(i: Input, v: real)
      requires Valid()
      requires Range(i).0 <= v <= Range(i).1
      modifies this
      ensures Valid()
      ensures params == SetInput(old(params), i, v)
      ensures sliders == old(sliders)[i := v]
      ensures plates == (if i == EFieldInput then Plates(v) else old(plates))
      ensures Snapshot() == Reset(params)
      ensures isAnimating == old(isAnimating)
    {
      params := SetInput(params, i, v);
      sliders := sliders[i := v];
      if i == EFieldInput {
        UpdateFieldPolarities();
      }
      ResetParticle();
    }

    /** Typing a value: the parameter takes it; the slider moves only when the
        value is in its range; the plates follow E; the particle is reset. */
    method Type(i: Input, v: real)
      requires Valid()
      modifies this
      ensures Valid()
      ensures params == SetInput(old(params), i, v)
      ensures sliders == old(sliders)[i := SliderAfter(Range(i).0, Range(i).1, old(sliders)[i], v)]
      ensures plates == (if i == EFieldInput then Plates(v) else old(plates))
      ensures Snapshot() == Reset(params)
      ensures isAnimating == old(isAnimating)
    {
      params := SetInput(params, i, v);
      var (lo, hi) := Range(i);
      if v >= lo && v <= hi {
        sliders := sliders[i := v];
      }
      if i == EFieldInput {
        UpdateFieldPolarities();
      }
      ResetParticle();
    }

    /** The gravity checkbox; the particle is not reset. */
    method SetGravity(on: bool)
      modifies this
      ensures params == old(params).(useGravity := on)
      ensures Snapshot() == old(Snapshot()) && isAnimating == old(isAnimating)
      ensures sliders == old(sliders) && plates == old(plates)
    {
      params := params.(useGravity := on);
    }

    /** toggleAnimation: a stopped run starts and takes its first frame at
        once; a running one stops where it is. */
    method ToggleAnimation()
      modifies this
      ensures isAnimating == !old(isAnimating)
      ensures old(isAnimating) ==> Snapshot() == old(Snapshot())
      ensures !old(isAnimating) ==> Snapshot() == Frame(params, old(Snapshot())) && InBounds(position)
      ensures params == old(params)
      ensures sliders == old(sliders) && plates == old(plates)
    {
      isAnimating := !isAnimating;
      if isAnimating {
        Animate();
      }
    }
  }
}
