/** The canvas mass spectrometer of src/Massenspektrometer.js: ions
    accelerated through a voltage V circle in a field B with the radius
    r = m v / (q B), v = sqrt(2 V q / m); a particle advances along its
    circle each frame and is removed once it reaches the detector. */
module MassSpectrometer {
  import opened Vectors
  import opened Wrappers

  /** The atomic mass unit in kg, 1.66053886e-27. */
  const AtomicMassUnit: real := 0.00000000000000000000000000166053886
  /** The elementary charge in C, 1.602e-19. */
  const ParticleCharge: real := 0.0000000000000000001602
  /** The display scale of a radius. */
  const DisplayScale: real := 1000000.0
  const DefaultMagneticField: real := 5.0
  const DefaultVoltage: real := 5000.0
  /** The source's x coordinate, where every orbit starts. */
  const SourceX: real := 50.0
  /** The detector sits this far from the right edge of the canvas. */
  const DetectorInset: real := 40.0
  /** How far a particle of mass 1 u turns per frame. */
  const AngleStep: real := 0.02

  /** getRandomColor's fixed palette. */
  const Palette: seq<string> := ["#FF5733", "#33FF57", "#3357FF", "#F3FF33",
                                 "#FF33F3", "#33FFF3", "#FF3333", "#33FF33"]

  /** An entry of particleMasses. */
  datatype Ion = Ion(name: string, mass: real, color: string)

  /** An entry of particles: an ion moving on the circle of the given centre
      and radius, at the given angle. */
  datatype Particle = Particle(mass: real, radius: real, name: string, color: string,
                               angle: real, centerX: real, centerY: real)

  /** getRandomColor: the palette entry floor(draw * 8) for a Math.random draw. */
  function PaletteColor(draw: real): (c: string)
    requires 0.0 <= draw < 1.0
    ensures c in Palette
  {
    Palette[(draw * |Palette| as real).Floor]
  }

  /** calculateRadius: the mass converted from u to kg, the speed after the
      accelerating voltage, the radius m v / (q B), scaled for display. */
  function CalculateRadius(mass: real, voltage: real, field: real, lib: MathLib): real
    requires mass != 0.0 && field != 0.0
  {
    var massInKg := mass * AtomicMassUnit;
    var velocity := lib.sqrt(2.0 * voltage * ParticleCharge / massInKg);
    var radius := massInKg * velocity / (ParticleCharge * field);
    radius * DisplayScale
  }

  /** 2 u V / (q B^2) times the squared display scale: the factor that turns
      a mass in u into the square of its radius. */
  function SquareFactor(voltage: real, field: real): real
    requires field != 0.0
  {
    2.0 * AtomicMassUnit * voltage * (DisplayScale * DisplayScale) / ParticleCharge / field / field
  }

  /** The square of the radius is 2 m V / (q B^2), times the squared display
      scale, with m the mass in kg. */
  lemma RadiusSquared(mass: real, voltage: real, field: real, lib: MathLib)
    requires Lawful(lib)
    requires mass > 0.0 && voltage >= 0.0 && field != 0.0
    ensures var r := CalculateRadius(mass, voltage, field, lib);
      r * r == mass * SquareFactor(voltage, field)
  {
    var a := 2.0 * voltage * ParticleCharge / (mass * AtomicMassUnit);
    NonNegativeQuotient(2.0 * voltage * ParticleCharge, mass * AtomicMassUnit);
    var v := lib.sqrt(a);
    assert v * v == a;
    RadiusAlgebra(mass, voltage, field, v);
  }

  lemma NonNegativeQuotient(a: real, b: real)
    requires a >= 0.0 && b > 0.0
    ensures a / b >= 0.0
  {
  }

  /** The algebra behind RadiusSquared, for any speed v with the square the
      voltage gives it. */
  lemma RadiusAlgebra(mass: real, voltage: real, field: real, v: real)
    requires mass != 0.0 && field != 0.0
    requires v * v == 2.0 * voltage * ParticleCharge / (mass * AtomicMassUnit)
    ensures var r := mass * AtomicMassUnit * v / (ParticleCharge * field) * DisplayScale;
      r * r == mass * SquareFactor(voltage, field)
  {
    var m := mass * AtomicMassUnit;
    var c := m / (ParticleCharge * field) * DisplayScale;
    var r := m * v / (ParticleCharge * field) * DisplayScale;
    assert r == c * v;
    assert r * r == c * c * (v * v);
  }

  /** With a positive voltage and field the radius is positive. */
  lemma RadiusPositive(mass: real, voltage: real, field: real, lib: MathLib)
    requires Lawful(lib)
    requires mass > 0.0 && voltage > 0.0 && field > 0.0
    ensures CalculateRadius(mass, voltage, field, lib) > 0.0
  {
    var m := mass * AtomicMassUnit;
    var a := 2.0 * voltage * ParticleCharge / m;
    assert a > 0.0;
    SqrtPositive(a, lib);
    MulPositive(m, lib.sqrt(a));
  }

  lemma SqrtPositive(x: real, lib: MathLib)
    requires Lawful(lib)
    requires x > 0.0
    ensures lib.sqrt(x) > 0.0
  {
    assert lib.sqrt(x) >= 0.0 && lib.sqrt(x) * lib.sqrt(x) == x;
  }

  /** Of two non-negative numbers the one with the smaller square is smaller. */
  lemma SquareOrder(a: real, b: real)
    requires a >= 0.0 && b >= 0.0 && a * a < b * b
    ensures a < b
  {
    if b < a {
      SquareStrictlyMonotone(a, b);
    }
  }

  /** Heavier ions circle on larger orbits. */
  lemma RadiusGrowsWithMass(m1: real, m2: real, voltage: real, field: real, lib: MathLib)
    requires Lawful(lib)
    requires 0.0 < m1 < m2 && voltage > 0.0 && field > 0.0
    ensures CalculateRadius(m1, voltage, field, lib) < CalculateRadius(m2, voltage, field, lib)
  {
    RadiusPositive(m1, voltage, field, lib);
    RadiusPositive(m2, voltage, field, lib);
    RadiusSquared(m1, voltage, field, lib);
    RadiusSquared(m2, voltage, field, lib);
    FactorPositive(voltage, field);
    MulPositive(m2 - m1, SquareFactor(voltage, field));
    SquareOrder(CalculateRadius(m1, voltage, field, lib), CalculateRadius(m2, voltage, field, lib));
  }

  lemma FactorPositive(voltage: real, field: real)
    requires voltage > 0.0 && field > 0.0
    ensures SquareFactor(voltage, field) > 0.0
  {
  }

  /** A stronger field gives a smaller factor. */
  lemma FactorShrinks(voltage: real, b1: real, b2: real)
    requires voltage > 0.0 && 0.0 < b1 < b2
    ensures SquareFactor(voltage, b2) < SquareFactor(voltage, b1)
  {
    var c := 2.0 * AtomicMassUnit * voltage * (DisplayScale * DisplayScale) / ParticleCharge;
    assert c > 0.0;
    InverseDecreases(c, b1, b2);
    InverseDecreases(c / b1, b1, b2);
    assert c / b2 / b2 < c / b1 / b2 by {
      DivideSmaller(c / b2, c / b1, b2);
    }
  }

  lemma DivideSmaller(x: real, y: real, b: real)
    requires x < y && b > 0.0
    ensures x / b < y / b
  {
  }

  lemma InverseDecreases(k: real, a: real, b: real)
    requires k > 0.0 && 0.0 < a < b
    ensures k / b < k / a
  {
    var x := k / a;
    var y := k / b;
    assert x * a == k && y * b == k;
    assert x > 0.0;
    MulPositive(x, b - a);
    assert x * b > k;
    if y >= x {
      MulNonDecreasing(x, y, b);
    }
  }

  lemma MulNonDecreasing(x: real, y: real, b: real)
    requires x <= y && b > 0.0
    ensures x * b <= y * b
  {
    if x < y {
      MulPositive(y - x, b);
    }
  }

  /** A stronger field bends an ion onto a smaller orbit. */
  lemma RadiusShrinksWithField(mass: real, voltage: real, b1: real, b2: real, lib: MathLib)
    requires Lawful(lib)
    requires mass > 0.0 && voltage > 0.0 && 0.0 < b1 < b2
    ensures CalculateRadius(mass, voltage, b2, lib) < CalculateRadius(mass, voltage, b1, lib)
  {
    RadiusPositive(mass, voltage, b1, lib);
    RadiusPositive(mass, voltage, b2, lib);
    RadiusSquared(mass, voltage, b1, lib);
    RadiusSquared(mass, voltage, b2, lib);
    FactorShrinks(voltage, b1, b2);
    MulPositive(mass, SquareFactor(voltage, b1) - SquareFactor(voltage, b2));
    SquareOrder(CalculateRadius(mass, voltage, b2, lib), CalculateRadius(mass, voltage, b1, lib));
  }

  /** addIon's entry: the colour comes from the palette. */
  function NewIon(name: string, mass: real, draw: real): (ion: Ion)
    requires 0.0 <= draw < 1.0
    ensures ion.name == name && ion.mass == mass && ion.color in Palette
  {
    Ion(name, mass, PaletteColor(draw))
  }

  /** The seven ions the constructor adds, with their colour draws. */
  function SeedIons(draws: seq<real>): (ions: seq<Ion>)
    requires |draws| == 7 && forall i :: 0 <= i < 7 ==> 0.0 <= draws[i] < 1.0
    ensures |ions| == 7 && forall ion <- ions :: ion.mass > 0.0 && ion.color in Palette
  {
    [NewIon("H+", 1.0, draws[0]), NewIon("He+", 4.0, draws[1]), NewIon("Li+", 7.0, draws[2]),
     NewIon("C+", 12.0, draws[3]), NewIon("O+", 16.0, draws[4]), NewIon("Na+", 23.0, draws[5]),
     NewIon("Cl+", 35.5, draws[6])]
  }

  /** The seven ions are the ones the constructor appends one at a time. */
  lemma SeedIonsAppended(draws: seq<real>)
    requires |draws| == 7 && forall i :: 0 <= i < 7 ==> 0.0 <= draws[i] < 1.0
    ensures SeedIons(draws)
      == [] + [NewIon("H+", 1.0, draws[0])] + [NewIon("He+", 4.0, draws[1])] + [NewIon("Li+", 7.0, draws[2])]
         + [NewIon("C+", 12.0, draws[3])] + [NewIon("O+", 16.0, draws[4])] + [NewIon("Na+", 23.0, draws[5])]
         + [NewIon("Cl+", 35.5, draws[6])]
  {
  }

  /** createParticle's entry for an ion: angle 0, circle centre straight
      below (in canvas coordinates, above) the source point (50, h/2). */
  function NewParticle(ion: Ion, height: real, voltage: real, field: real, lib: MathLib): (p: Particle)
    requires ion.mass != 0.0 && field != 0.0
    ensures p.mass == ion.mass && p.name == ion.name && p.color == ion.color
    ensures p.radius == CalculateRadius(ion.mass, voltage, field, lib)
    ensures p.angle == 0.0
  {
    var radius := CalculateRadius(ion.mass, voltage, field, lib);
    Particle(ion.mass, radius, ion.name, ion.color, 0.0, SourceX, height / 2.0 - radius)
  }

  /** The source point (50, h/2) lies on a new particle's circle: it is one
      radius from the centre. */
  lemma SourceOnOrbit(ion: Ion, height: real, voltage: real, field: real, lib: MathLib)
    requires ion.mass != 0.0 && field != 0.0
    ensures var p := NewParticle(ion, height, voltage, field, lib);
      && p.centerX == SourceX
      && (SourceX - p.centerX) * (SourceX - p.centerX)
         + (height / 2.0 - p.centerY) * (height / 2.0 - p.centerY) == p.radius * p.radius
  {
  }

  /** The x coordinate of a particle on its circle. */
  function ParticleX(p: Particle, lib: MathLib): real {
    p.centerX + p.radius * lib.cos(p.angle)
  }

  /** A particle still short of the detector at x = width - 40. */
  predicate Undetected(p: Particle, width: real, lib: MathLib) {
    ParticleX(p, lib) <= width - DetectorInset
  }

  /** How far update turns a particle: 0.02 / sqrt(mass), positive for a positive mass. */
  function AngularSpeed(mass: real, lib: MathLib): (w: real)
    requires Lawful(lib) && mass > 0.0
    ensures w > 0.0
  {
    SqrtPositive(mass, lib);
    AngleStep / lib.sqrt(mass)
  }

  /** update's first pass on one particle. */
  function Advance(p: Particle, lib: MathLib): Particle
    requires Lawful(lib) && p.mass > 0.0
  {
    p.(angle := p.angle + AngularSpeed(p.mass, lib))
  }

  /** A particle turns forwards and changes nothing else. */
  lemma AdvanceTurnsForwards(p: Particle, lib: MathLib)
    requires Lawful(lib) && p.mass > 0.0
    ensures Advance(p, lib).angle > p.angle
    ensures Advance(p, lib).(angle := p.angle) == p
  {
  }

  predicate AllPositive(ps: seq<Particle>) {
    forall i :: 0 <= i < |ps| ==> ps[i].mass > 0.0
  }

  /** update's first pass: every particle advanced, in place. */
  function AdvanceAll(ps: seq<Particle>, lib: MathLib): (r: seq<Particle>)
    requires Lawful(lib) && AllPositive(ps)
    ensures |r| == |ps| && AllPositive(r)
  {
    seq(|ps|, i requires 0 <= i < |ps| => Advance(ps[i], lib))
  }

  /** update's second pass: keeps the particles short of the detector, in order. */
  function KeepUndetected(ps: seq<Particle>, width: real, lib: MathLib): (r: seq<Particle>)
    ensures |r| <= |ps|
  {
    if ps == [] then []
    else
      var rest := KeepUndetected(ps[1..], width, lib);
      if Undetected(ps[0], width, lib) then [ps[0]] + rest else rest
  }

  /** The filter keeps exactly the particles short of the detector. */
  lemma {:induction false} KeepUndetectedMembers(ps: seq<Particle>, width: real, lib: MathLib)
    ensures forall p :: p in KeepUndetected(ps, width, lib) <==> p in ps && Undetected(p, width, lib)
    decreases |ps|
  {
    if ps != [] {
      KeepUndetectedMembers(ps[1..], width, lib);
      assert ps == [ps[0]] + ps[1..];
    }
  }

  /** The filter keeps order: filtering a concatenation concatenates the
      filtered halves. */
  lemma {:induction false} KeepUndetectedKeepsOrder(a: seq<Particle>, b: seq<Particle>, width: real, lib: MathLib)
    ensures KeepUndetected(a + b, width, lib) == KeepUndetected(a, width, lib) + KeepUndetected(b, width, lib)
    decreases |a|
  {
    if a == [] {
      assert a + b == b;
    } else {
      var p, tail := a[0], a[1..];
      assert a == [p] + tail;
      assert a + b == [p] + (tail + b);
      KeepUndetectedKeepsOrder(tail, b, width, lib);
      KeepUndetectedCons(p, tail + b, width, lib);
      KeepUndetectedCons(p, tail, width, lib);
    }
  }

  /** The filter on a sequence with a first element. */
  lemma KeepUndetectedCons(p: Particle, rest: seq<Particle>, width: real, lib: MathLib)
    ensures KeepUndetected([p] + rest, width, lib)
      == (if Undetected(p, width, lib) then [p] else []) + KeepUndetected(rest, width, lib)
  {
    assert ([p] + rest)[1..] == rest;
  }

  /** A single particle is kept exactly when it is short of the detector. */
  lemma KeepUndetectedSingle(p: Particle, width: real, lib: MathLib)
    ensures KeepUndetected([p], width, lib) == if Undetected(p, width, lib) then [p] else []
  {
    assert [p][1..] == [];
  }

  /** The particles update leaves: all advanced, those past the detector dropped. */
  function AfterUpdate(ps: seq<Particle>, width: real, lib: MathLib): seq<Particle>
    requires Lawful(lib) && AllPositive(ps)
  {
    KeepUndetected(AdvanceAll(ps, lib), width, lib)
  }

  /** recalculateParticleRadii applied to a list: each radius from the
      particle's mass and the current field and voltage. */
  function Recomputed(ps: seq<Particle>, voltage: real, field: real, lib: MathLib): (r: seq<Particle>)
    requires AllPositive(ps) && field != 0.0
    ensures |r| == |ps| && AllPositive(r)
  {
    seq(|ps|, i requires 0 <= i < |ps| => ps[i].(radius := CalculateRadius(ps[i].mass, voltage, field, lib)))
  }

  /** Recomputing changes only the radii, each to the radius of its mass;
      doing it twice is doing it once. */
  lemma RecomputedLaw(ps: seq<Particle>, voltage: real, field: real, lib: MathLib)
    requires AllPositive(ps) && field != 0.0
    ensures var r := Recomputed(ps, voltage, field, lib);
      && (forall i :: 0 <= i < |ps| ==>
            && r[i].radius == CalculateRadius(ps[i].mass, voltage, field, lib)
            && r[i].(radius := ps[i].radius) == ps[i])
      && Recomputed(r, voltage, field, lib) == r
  {
  }

  /** The custom ion's name: the typed symbol, or "Ion-" and the mass as
      the page prints it when the prompt gave nothing. */
  function CustomName(typed: string, printedMass: string): (name: string)
    ensures typed != "" ==> name == typed
    ensures typed == "" ==> name == "Ion-" + printedMass
  {
    if typed == "" then "Ion-" + printedMass else typed
  }

  /** The class MassSpectrometer. The canvas size is fixed at construction. */
  class MassSpectrometerSim {
    const width: real
    const height: real
    var magneticField: real
    var accelerationVoltage: real
    var ions: seq<Ion>
    var particles: seq<Particle>
    var isAnimating: bool

    /** Every ion and every particle has a positive mass, and the field is non-zero. */
    predicate Valid()
      reads this
    {
      && (forall i :: 0 <= i < |ions| ==> ions[i].mass > 0.0)
      && AllPositive(particles)
      && magneticField != 0.0
    }

    /** The constructor: B = 5, V = 5000, no particles, the seven standard ions. */
    constructor (w: real, h: real, draws: seq<real>)
      requires |draws| == 7 && forall i :: 0 <= i < 7 ==> 0.0 <= draws[i] < 1.0
      ensures width == w && height == h
      ensures magneticField == DefaultMagneticField && accelerationVoltage == DefaultVoltage
      ensures ions == SeedIons(draws) && particles == [] && !isAnimating
      ensures Valid()
    {
      width := w;
      height := h;
      magneticField := DefaultMagneticField;
      accelerationVoltage := DefaultVoltage;
      ions := [];
      particles := [];
      isAnimating := false;
      new;
      AddIon("H+", 1.0, draws[0]);
      AddIon("He+", 4.0, draws[1]);
      AddIon("Li+", 7.0, draws[2]);
      AddIon("C+", 12.0, draws[3]);
      AddIon("O+", 16.0, draws[4]);
      AddIon("Na+", 23.0, draws[5]);
      AddIon("Cl+", 35.5, draws[6]);
      SeedIonsAppended(draws);
    }

    /** addIon: appends exactly one entry, with a colour from the palette. */
    method AddIon(name: string, mass: real, draw: real)
      requires 0.0 <= draw < 1.0
      modifies this
      ensures ions == old(ions) + [NewIon(name, mass, draw)]
      ensures particles == old(particles) && isAnimating == old(isAnimating)
      ensures magneticField == old(magneticField) && accelerationVoltage == old(accelerationVoltage)
    {
      var color := PaletteColor(draw);
      ions := ions + [Ion(name, mass, color)];
    }

    /** The add-ion button: the mass prompt gives None when cancelled, empty
        or not a number; an ion is added only for a positive mass. */
    method AddCustomIon(mass: Option<real>, typedName: string, printedMass: string, draw: real)
      requires Valid() && 0.0 <= draw < 1.0
      modifies this
      ensures Valid()
      ensures mass.Some? && mass.value > 0.0 ==>
        ions == old(ions) + [NewIon(CustomName(typedName, printedMass), mass.value, draw)]
      ensures !(mass.Some? && mass.value > 0.0) ==> ions == old(ions)
      ensures particles == old(particles) && isAnimating == old(isAnimating)
      ensures magneticField == old(magneticField) && accelerationVoltage == old(accelerationVoltage)
    {
      if mass.Some? && mass.value > 0.0 {
        AddIon(CustomName(typedName, printedMass), mass.value, draw);
        assert ions[|ions| - 1].mass > 0.0 && ions[..|ions| - 1] == old(ions);
      }
    }

    /** createParticle: the ion's particle is appended, starting at the source. */
    method CreateParticle(massIndex: nat, lib: MathLib)
      requires Valid() && massIndex < |ions|
      modifies this
      ensures Valid()
      ensures ions == old(ions) && isAnimating == old(isAnimating)
      ensures particles == old(particles) + [NewParticle(ions[massIndex], height, accelerationVoltage, magneticField, lib)]
      ensures magneticField == old(magneticField) && accelerationVoltage == old(accelerationVoltage)
    {
      var massData := ions[massIndex];
      var radius := CalculateRadius(massData.mass, accelerationVoltage, magneticField, lib);
      var x := SourceX;
      var y := height / 2.0;
      particles := particles + [Particle(massData.mass, radius, massData.name, massData.color, 0.0, x, y - radius)];
    }

    /** update: every particle turns by its angular speed, in place, then
        the particles that reached the detector are dropped. */
    method Update(lib: MathLib)
      requires Valid() && Lawful(lib)
      modifies this
      ensures Valid()
      ensures particles == AfterUpdate(old(particles), width, lib)
      ensures ions == old(ions) && isAnimating == old(isAnimating)
      ensures magneticField == old(magneticField) && accelerationVoltage == old(accelerationVoltage)
    {
      var advanced := AdvanceAll(particles, lib);
      var i := 0;
      while i < |particles|
        invariant 0 <= i <= |particles| == |advanced|
        invariant AllPositive(particles)
        invariant ions == old(ions) && isAnimating == old(isAnimating)
        invariant magneticField == old(magneticField) && accelerationVoltage == old(accelerationVoltage)
        invariant particles[..i] == advanced[..i]
        invariant particles[i..] == old(particles)[i..]
      {
        var particle := particles[i];
        var speed := AngularSpeed(particle.mass, lib);
        particles := particles[i := particle.(angle := particle.angle + speed)];
        i := i + 1;
      }
      assert particles == advanced;
      var kept := KeepUndetected(particles, width, lib);
      KeepUndetectedMembers(particles, width, lib);
      assert forall j :: 0 <= j < |kept| ==> kept[j] in particles;
      particles := kept;
    }

    /** recalculateParticleRadii: each radius from the current B and V, in place. */
    method RecalculateParticleRadii(lib: MathLib)
      requires Valid()
      modifies this
      ensures Valid()
      ensures particles == Recomputed(old(particles), accelerationVoltage, magneticField, lib)
      ensures ions == old(ions) && isAnimating == old(isAnimating)
      ensures magneticField == old(magneticField) && accelerationVoltage == old(accelerationVoltage)
    {
      ghost var target := Recomputed(particles, accelerationVoltage, magneticField, lib);
      var i := 0;
      while i < |particles|
        invariant 0 <= i <= |particles| == |target|
        invariant AllPositive(particles)
        invariant ions == old(ions) && isAnimating == old(isAnimating)
        invariant magneticField == old(magneticField) && accelerationVoltage == old(accelerationVoltage)
        invariant particles[..i] == target[..i]
        invariant particles[i..] == old(particles)[i..]
      {
        var particle := particles[i];
        particles := particles[i := particle.(radius := CalculateRadius(particle.mass, accelerationVoltage, magneticField, lib))];
        i := i + 1;
      }
      assert particles == target;
    }

    /** The field slider and input: the new B, then the radii recomputed. */
    method SetMagneticField(b: real, lib: MathLib)
      requires Valid() && b != 0.0
      modifies this
      ensures Valid()
      ensures magneticField == b && accelerationVoltage == old(accelerationVoltage)
      ensures particles == Recomputed(old(particles), accelerationVoltage, b, lib)
      ensures ions == old(ions) && isAnimating == old(isAnimating)
    {
      magneticField := b;
      RecalculateParticleRadii(lib);
    }

    /** The voltage slider and input: the new V, then the radii recomputed. */
    method SetVoltage(v: real, lib: MathLib)
      requires Valid()
      modifies this
      ensures Valid()
      ensures accelerationVoltage == v && magneticField == old(magneticField)
      ensures particles == Recomputed(old(particles), v, magneticField, lib)
      ensures ions == old(ions) && isAnimating == old(isAnimating)
    {
      accelerationVoltage := v;
      RecalculateParticleRadii(lib);
    }

    /** The reset button: all particles removed, the ions kept. */
    method Reset()
      requires Valid()
      modifies this
      ensures Valid()
      ensures particles == [] && ions == old(ions) && isAnimating == old(isAnimating)
      ensures magneticField == old(magneticField) && accelerationVoltage == old(accelerationVoltage)
    {
      particles := [];
    }

    /** startAnimation: nothing when already animating; otherwise the flag is
        set and the first frame's update runs at once. */
    method StartAnimation(lib: MathLib)
      requires Valid() && Lawful(lib)
      modifies this
      ensures Valid()
      ensures isAnimating
      ensures old(isAnimating) ==> particles == old(particles)
      ensures !old(isAnimating) ==> particles == AfterUpdate(old(particles), width, lib)
      ensures ions == old(ions)
      ensures magneticField == old(magneticField) && accelerationVoltage == old(accelerationVoltage)
    {
      if isAnimating {
        return;
      }
      isAnimating := true;
      Update(lib);
    }

    /** A later animation frame: an update for as long as the animation runs. */
    method AnimationFrame(lib: MathLib)
      requires Valid() && Lawful(lib)
      modifies this
      ensures Valid()
      ensures old(isAnimating) ==> particles == AfterUpdate(old(particles), width, lib)
      ensures !old(isAnimating) ==> particles == old(particles)
      ensures ions == old(ions) && isAnimating == old(isAnimating)
      ensures magneticField == old(magneticField) && accelerationVoltage == old(accelerationVoltage)
    {
      if isAnimating {
        Update(lib);
      }
    }

    /** stopAnimation */
    method StopAnimation()
      modifies this
      ensures !isAnimating
      ensures particles == old(particles) && ions == old(ions)
      ensures magneticField == old(magneticField) && accelerationVoltage == old(accelerationVoltage)
    {
      isAnimating := false;
    }
  }
}
