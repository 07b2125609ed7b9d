/** The Hall-effect simulation of src/Nmain.js (class HallEffectSimulation),
    and its copy in public/nmain.js: electrons drift along a conductor, are
    pushed sideways inside the magnet's field box, and wrap around at its
    right end; the Hall voltage U_H = RH (I B) / d drives the indicator
    arrows and the charge indicators; a tutorial walks through five panels. */
module HallEffect {
  import opened Vectors
  import opened Wrappers

  const ConductorLength: real := 6.0
  const ConductorHeight: real := 0.5
  /** d in the Hall formula. */
  const ConductorWidth: real := 1.5
  const ElectronSpeed: real := 0.03
  const ElectronSize: real := 0.125
  /** The magnet's field box is [-1.5, 1.5] in each coordinate. */
  const FieldBound: real := 1.5
  const GravityStrength: real := 0.001
  /** The number of entries of tutorialSteps. */
  const TutorialStepCount: nat := 5
  /** The number of electrons createElectrons makes at start-up. */
  const ElectronCount: nat := 15

  /** The page's input elements: the two sliders (as parsed integers) and the
      material select (as a parsed number); None when the element is missing. */
  datatype Controls = Controls(current: Option<int>, magneticField: Option<int>, material: Option<real>)

  /** getCurrentValue: slider / 50, or 1 without the slider. */
  function CurrentValue(c: Controls): real {
    match c.current
    case Some(v) => v as real / 50.0
    case None => 1.0
  }

  /** getMagneticFieldValue: slider / 50, or 1 without the slider. */
  function MagneticFieldValue(c: Controls): real {
    match c.magneticField
    case Some(v) => v as real / 50.0
    case None => 1.0
  }

  /** getHallCoefficient: material / 10, or 1 without the select. */
  function HallCoefficient(c: Controls): real {
    match c.material
    case Some(v) => v / 10.0
    case None => 1.0
  }

  /** U_H = RH (I B) / d */
  function HallVoltage(c: Controls): real {
    HallCoefficient(c) * (CurrentValue(c) * MagneticFieldValue(c)) / ConductorWidth
  }

  /** The voltage times the thickness is RH I B; with I B > 0 its sign is the
      sign of RH, and with no inputs on the page it is 1 / 1.5. */
  lemma HallVoltageLaw(c: Controls)
    ensures HallVoltage(c) * ConductorWidth == HallCoefficient(c) * CurrentValue(c) * MagneticFieldValue(c)
    ensures CurrentValue(c) * MagneticFieldValue(c) > 0.0 ==>
      (HallVoltage(c) > 0.0 <==> HallCoefficient(c) > 0.0) && (HallVoltage(c) < 0.0 <==> HallCoefficient(c) < 0.0)
    ensures c == Controls(None, None, None) ==> HallVoltage(c) == 1.0 / 1.5
  {
    var ib := CurrentValue(c) * MagneticFieldValue(c);
    var rh := HallCoefficient(c);
    if ib > 0.0 {
      if rh > 0.0 { MulPositive(rh, ib); }
      if rh < 0.0 { MulPositive(-rh, ib); }
    }
  }

  /** isInMagneticField: inclusive membership of the field box. */
  predicate InField(p: Vec3) {
    && p.x >= -FieldBound && p.x <= FieldBound
    && p.y >= -FieldBound && p.y <= FieldBound
    && p.z >= -FieldBound && p.z <= FieldBound
  }

  /** The box is the closed ball of radius 1.5 in the maximum norm. */
  lemma InFieldIsMaxNorm(p: Vec3)
    ensures InField(p) <==> Max(Abs(p.x), Max(Abs(p.y), Abs(p.z))) <= FieldBound
  {
  }

  // ---------------------------------------------------------------------
  // Hall-voltage arrows and charge indicators

  datatype Side = PosZ | NegZ

  datatype Arrow = Arrow(side: Side, visible: bool, scale: real)

  /** The side whose arrows show the voltage: posZ for a negative RH, else negZ. */
  function ShownSide(rh: real): Side {
    if rh < 0.0 then PosZ else NegZ
  }

  /** Math.max(0.5, Math.min(2, x)) */
  function ArrowScale(x: real): (s: real)
    ensures 0.5 <= s <= 2.0
    ensures 0.5 <= x <= 2.0 ==> s == x
  {
    Max(0.5, Min(2.0, x))
  }

  /** One pass of the visibility loop of calculateHallVoltage over an arrow. */
  function UpdateArrow(a: Arrow, u: real, rh: real): Arrow {
    var shouldBeVisible := Abs(u) > 0.1;
    var visible := shouldBeVisible && a.side == ShownSide(rh);
    if visible && shouldBeVisible then a.(visible := visible, scale := ArrowScale(Abs(u)))
    else a.(visible := visible)
  }

  function UpdateArrows(arrows: seq<Arrow>, u: real, rh: real): (r: seq<Arrow>)
    ensures |r| == |arrows|
  {
    seq(|arrows|, i requires 0 <= i < |arrows| => UpdateArrow(arrows[i], u, rh))
  }

  /** After the loop an arrow is visible exactly when |U| > 0.1 and it is on
      the side RH selects; a visible arrow has the scale clamp(|U|, 0.5, 2); an
      invisible one keeps its scale; no arrow changes side. */
  lemma ArrowsAfterUpdate(arrows: seq<Arrow>, u: real, rh: real)
    ensures var r := UpdateArrows(arrows, u, rh);
      forall i :: 0 <= i < |arrows| ==>
        && r[i].side == arrows[i].side
        && (r[i].visible <==> Abs(u) > 0.1 && (if rh < 0.0 then arrows[i].side == PosZ else arrows[i].side == NegZ))
        && (r[i].visible ==> r[i].scale == ArrowScale(Abs(u)) && 0.5 <= r[i].scale <= 2.0)
        && (!r[i].visible ==> r[i].scale == arrows[i].scale)
  {
  }

  /** The four arrows of createHallVoltageVisualization, two per side. */
  function InitialArrows(): (r: seq<Arrow>)
    ensures |r| == 4
    ensures forall i :: 0 <= i < |r| ==> r[i].visible && r[i].scale == 1.0
    ensures r[0].side == r[1].side == PosZ && r[2].side == r[3].side == NegZ
  {
    [Arrow(PosZ, true, 1.0), Arrow(PosZ, true, 1.0), Arrow(NegZ, true, 1.0), Arrow(NegZ, true, 1.0)]
  }

  /** updateChargeIndicators: the z positions of the plus and the minus indicator. */
  function IndicatorZ(rh: real): (r: (real, real))
    ensures r.0 == -r.1
    ensures r.0 == ConductorWidth / 2.0 || r.0 == -ConductorWidth / 2.0
    ensures r.0 < 0.0 <==> rh < 0.0
  {
    if rh < 0.0 then (-ConductorWidth / 2.0, ConductorWidth / 2.0)
    else (ConductorWidth / 2.0, -ConductorWidth / 2.0)
  }

  /** Recomputing the arrows a second time from the same inputs changes
      nothing more, so clearHighlights may run it twice in a row. */
  lemma UpdateArrowsIdempotent(arrows: seq<Arrow>, u: real, rh: real)
    ensures UpdateArrows(UpdateArrows(arrows, u, rh), u, rh) == UpdateArrows(arrows, u, rh)
  {
  }

  // ---------------------------------------------------------------------
  // Tutorial highlights

  /** The highlight targets of the five tutorial panels, in order. */
  datatype Target = Conductor | MagnetGroup | Lorentz | HallVoltageArrows | ControlsPanel

  function TutorialTarget(step: nat): Target
    requires step < TutorialStepCount
  {
    [Conductor, MagnetGroup, Lorentz, HallVoltageArrows, ControlsPanel][step]
  }

  /** The scale highlightObject gives every Hall-voltage arrow. */
  const HighlightScale: real := 1.5

  /** highlightObject("hallVoltageArrows"): every arrow visible at scale 1.5. */
  function HighlightArrows(arrows: seq<Arrow>): (r: seq<Arrow>)
    ensures |r| == |arrows|
    ensures forall i :: 0 <= i < |r| ==> r[i].side == arrows[i].side && r[i].visible && r[i].scale == HighlightScale
  {
    seq(|arrows|, i requires 0 <= i < |arrows| => arrows[i].(visible := true, scale := HighlightScale))
  }

  /** The arrows while panel `step` is shown: clearHighlights' recompute from
      the inputs, then the panel's highlight. */
  function TutorialArrows(arrows: seq<Arrow>, c: Controls, step: nat): seq<Arrow>
    requires step < TutorialStepCount
  {
    var r := UpdateArrows(arrows, HallVoltage(c), HallCoefficient(c));
    if TutorialTarget(step) == HallVoltageArrows then HighlightArrows(r) else r
  }

  /** Panel 3 shows all four arrows at scale 1.5 whatever the voltage; every
      other panel shows the arrows the voltage selects; and a recompute just
      before a panel leaves no mark on it. */
  lemma TutorialArrowsLaw(arrows: seq<Arrow>, c: Controls, step: nat)
    requires step < TutorialStepCount
    ensures var r := TutorialArrows(arrows, c, step);
      && |r| == |arrows|
      && (step == 3 ==> forall i :: 0 <= i < |r| ==> r[i].side == arrows[i].side && r[i].visible && r[i].scale == HighlightScale)
      && (step != 3 ==> r == UpdateArrows(arrows, HallVoltage(c), HallCoefficient(c)))
    ensures TutorialArrows(UpdateArrows(arrows, HallVoltage(c), HallCoefficient(c)), c, step) == TutorialArrows(arrows, c, step)
  {
  }

  /** The recompute after panel 3 leaves no trace of the highlight on what is
      shown: each arrow has the visibility, and a visible one the scale, it
      would have had without the highlight. */
  lemma HighlightLeavesNoTrace(arrows: seq<Arrow>, u: real, rh: real)
    ensures var after := UpdateArrows(HighlightArrows(arrows), u, rh);
      var plain := UpdateArrows(arrows, u, rh);
      forall i :: 0 <= i < |arrows| ==>
        && after[i].side == plain[i].side
        && after[i].visible == plain[i].visible
        && (plain[i].visible ==> after[i] == plain[i])
  {
  }

  /** Starting the tutorial on the default inputs with the initial arrows:
      the posZ arrows show at 0.5 and the negZ arrows are hidden. */
  lemma TutorialStartOnDefaults()
    ensures TutorialArrows(InitialArrows(), Controls(Some(50), Some(50), Some(-5.3)), 0)
      == [Arrow(PosZ, true, 0.5), Arrow(PosZ, true, 0.5), Arrow(NegZ, false, 1.0), Arrow(NegZ, false, 1.0)]
  {
  }

  // ---------------------------------------------------------------------
  // Electrons

  /** An electron's position and its stored originalPosition. */
  datatype Electron = Electron(position: Vec3, original: Vec3)

  /** THREE.MathUtils.lerp */
  function Lerp(a: real, b: real, t: real): real {
    (1.0 - t) * a + t * b
  }

  /** Math.max(lo, Math.min(hi, v)) */
  function Clamp(lo: real, hi: real, v: real): (r: real)
    requires lo <= hi
    ensures lo <= r <= hi
    ensures lo <= v <= hi ==> r == v
  {
    Max(lo, Min(hi, v))
  }

  const YLimit: real := ConductorHeight / 2.0 - ElectronSize
  const ZLimit: real := ConductorWidth / 2.0 - ElectronSize
  const XLimit: real := ConductorLength / 2.0 - ElectronSize

  /** createElectrons: x and z from two draws of Math.random in [0, 1), y = 0. */
  function NewElectron(rx: real, rz: real): (e: Electron)
    requires 0.0 <= rx < 1.0 && 0.0 <= rz < 1.0
    ensures e.position == e.original && e.position.y == 0.0
    ensures -2.5 <= e.position.x < 2.5
    ensures -0.65 <= e.position.z < 0.65
  {
    var p := Vec3((rx - 0.5) * (ConductorLength - 1.0), 0.0, (rz - 0.5) * (ConductorWidth - 0.2));
    Electron(p, p)
  }

  /** The current drift along x and the small fall along y. */
  function Drift(p: Vec3, current: real): Vec3 {
    Vec3(p.x + ElectronSpeed * current, p.y - GravityStrength, p.z)
  }

  /** Inside the box z moves by -f (1 - z / (d/2)) with f = 0.01 U; outside,
      y and z move 5% of the way back to the original position. */
  function Deflect(p: Vec3, original: Vec3, u: real): Vec3 {
    if InField(p) then
      var lorentzForce := u * 0.01;
      var electricForce := lorentzForce * (p.z / (ConductorWidth / 2.0));
      p.(z := p.z - (lorentzForce - electricForce))
    else
      var z := Lerp(p.z, original.z, 0.05);
      p.(z := z, y := Lerp(p.y, original.y, 0.05))
  }

  /** The clamps of y and z to the inside of the conductor. */
  function Confine(p: Vec3): Vec3 {
    p.(y := Clamp(-YLimit, YLimit, p.y)).(z := Clamp(-ZLimit, ZLimit, p.z))
  }

  /** Whether the electron passes the right end and is put back at the left. */
  predicate Wraps(p: Vec3) {
    p.x > XLimit
  }

  /** One electron in one frame; draw is the Math.random value used if it wraps. */
  function ElectronStep(e: Electron, u: real, current: real, draw: real): Electron {
    var p := Confine(Deflect(Drift(e.position, current), e.original, u));
    if Wraps(p) then
      var q := p.(x := -XLimit, z := (draw - 0.5) * (ConductorWidth - 0.2));
      Electron(q, q)
    else Electron(p, e.original)
  }

  /** Inside the box the push vanishes at z = d/2 and is f at the centre line. */
  lemma FieldPush(p: Vec3, original: Vec3, u: real)
    requires InField(p)
    ensures var f := u * 0.01;
      Deflect(p, original, u).z == p.z - f * (1.0 - p.z / (ConductorWidth / 2.0))
    ensures p.z == ConductorWidth / 2.0 ==> Deflect(p, original, u).z == p.z
    ensures p.z == 0.0 ==> Deflect(p, original, u).z == -u * 0.01
    ensures Deflect(p, original, u).x == p.x && Deflect(p, original, u).y == p.y
  {
  }

  /** Outside the box y and z close 5% of their distance to the original position. */
  lemma RelaxTowardsOriginal(p: Vec3, original: Vec3, u: real)
    requires !InField(p)
    ensures var r := Deflect(p, original, u);
      && original.z - r.z == 0.95 * (original.z - p.z)
      && original.y - r.y == 0.95 * (original.y - p.y)
      && r.x == p.x
  {
  }

  /** After a frame an electron lies inside the conductor in y, left of the
      wrap line in x, and inside in z unless it wrapped, when z is the fresh
      random value, within +-0.65 (which may exceed the z limit 0.625). */
  lemma ElectronStepBounds(e: Electron, u: real, current: real, draw: real)
    requires 0.0 <= draw < 1.0
    ensures var r := ElectronStep(e, u, current, draw).position;
      var wrapped := Wraps(Confine(Deflect(Drift(e.position, current), e.original, u)));
      && -YLimit <= r.y <= YLimit
      && r.x <= XLimit
      && (!wrapped ==> -ZLimit <= r.z <= ZLimit)
      && (wrapped ==> r.x == -XLimit && -0.65 <= r.z < 0.65 && ElectronStep(e, u, current, draw).original == r)
  {
  }

  /** The wrap can leave an electron outside the z limit: a draw of 0 puts it at z = -0.65. */
  lemma WrapCanLeaveZRange()
    ensures var e := Electron(Vec3(2.87, 0.0, 0.0), Vec3(2.87, 0.0, 0.0));
      var r := ElectronStep(e, 0.0, 1.0, 0.0).position;
      r.z == -0.65 && r.z < -ZLimit
  {
  }

  /** The frame's update of every electron. */
  function ElectronsStep(es: seq<Electron>, u: real, current: real, draws: seq<real>): (r: seq<Electron>)
    requires |draws| == |es|
    ensures |r| == |es|
  {
    seq(|es|, i requires 0 <= i < |es| => ElectronStep(es[i], u, current, draws[i]))
  }

  /** The dimensions used by the bounds: y within +-0.125, z within +-0.625, x up to 2.875. */
  lemma Limits()
    ensures YLimit == 0.125 && ZLimit == 0.625 && XLimit == 2.875
  {
  }

  // ---------------------------------------------------------------------
  // The simulation object

  class HallEffectSim {
    var controls: Controls
    var electrons: seq<Electron>
    var hallVoltageArrows: seq<Arrow>
    var plusZ: real
    var minusZ: real
    var isPaused: bool
    var tutorialActive: bool
    var currentTutorialStep: nat
    /** Whether the explanation panel has the tutorial's click handler; it
        is installed by showTutorialStep and removed after the last panel
        only, so a reset during the tutorial leaves it in place. */
    var panelClickHandler: bool

    /** The tutorial only shows existing panels, and while the click handler
        is installed the step is below the panel count. */
    predicate Valid()
      reads this
    {
      && (tutorialActive ==> panelClickHandler)
      && (panelClickHandler ==> currentTutorialStep < TutorialStepCount)
    }

    /** src/Nmain.js: the electrons from the start-up draws; init() ends by
        calling animate(), whose first updateElectronPositions runs before
        the constructor builds the four Hall-voltage arrows (wrapDraws[i] is
        the random value electron i uses if that frame wraps it). */
    constructor (c: Controls, draws: seq<(real, real)>, wrapDraws: seq<real>)
      requires |draws| == ElectronCount && |wrapDraws| == ElectronCount
      requires forall i :: 0 <= i < |draws| ==> 0.0 <= draws[i].0 < 1.0 && 0.0 <= draws[i].1 < 1.0
      ensures Valid()
      ensures controls == c && !isPaused && !tutorialActive && currentTutorialStep == 0 && !panelClickHandler
      ensures |electrons| == ElectronCount
      ensures forall i :: 0 <= i < |draws| ==>
        electrons[i] == ElectronStep(NewElectron(draws[i].0, draws[i].1), HallVoltage(c), CurrentValue(c), wrapDraws[i])
      ensures hallVoltageArrows == InitialArrows()
      ensures (plusZ, minusZ) == IndicatorZ(HallCoefficient(c))
    {
      controls := c;
      isPaused := false;
      tutorialActive := false;
      currentTutorialStep := 0;
      panelClickHandler := false;
      plusZ, minusZ := -ConductorWidth / 2.0, ConductorWidth / 2.0;
      electrons := [];
      hallVoltageArrows := [];
      new;
      CreateElectrons(draws);
      UpdateElectronPositions(wrapDraws);
      hallVoltageArrows := InitialArrows();
    }

    /** public/nmain.js: the same start, with the same first frame from
        init()'s animate(), but its constructor never builds the arrows. */
    constructor WithoutArrows(c: Controls, draws: seq<(real, real)>, wrapDraws: seq<real>)
      requires |draws| == ElectronCount && |wrapDraws| == ElectronCount
      requires forall i :: 0 <= i < |draws| ==> 0.0 <= draws[i].0 < 1.0 && 0.0 <= draws[i].1 < 1.0
      ensures Valid()
      ensures controls == c && !isPaused && !tutorialActive && currentTutorialStep == 0 && !panelClickHandler
      ensures |electrons| == ElectronCount
      ensures forall i :: 0 <= i < |draws| ==>
        electrons[i] == ElectronStep(NewElectron(draws[i].0, draws[i].1), HallVoltage(c), CurrentValue(c), wrapDraws[i])
      ensures hallVoltageArrows == []
      ensures (plusZ, minusZ) == IndicatorZ(HallCoefficient(c))
    {
      controls := c;
      isPaused := false;
      tutorialActive := false;
      currentTutorialStep := 0;
      panelClickHandler := false;
      plusZ, minusZ := -ConductorWidth / 2.0, ConductorWidth / 2.0;
      electrons := [];
      hallVoltageArrows := [];
      new;
      CreateElectrons(draws);
      UpdateElectronPositions(wrapDraws);
    }

    /** createElectrons: one electron per pair of draws, appended in order. */
    method CreateElectrons(draws: seq<(real, real)>)
      requires forall i :: 0 <= i < |draws| ==> 0.0 <= draws[i].0 < 1.0 && 0.0 <= draws[i].1 < 1.0
      modifies this
      ensures |electrons| == |old(electrons)| + |draws|
      ensures electrons[..|old(electrons)|] == old(electrons)
      ensures forall i :: 0 <= i < |draws| ==> electrons[|old(electrons)| + i] == NewElectron(draws[i].0, draws[i].1)
      ensures controls == old(controls) && hallVoltageArrows == old(hallVoltageArrows)
      ensures plusZ == old(plusZ) && minusZ == old(minusZ)
      ensures isPaused == old(isPaused) && tutorialActive == old(tutorialActive)
      ensures currentTutorialStep == old(currentTutorialStep) && panelClickHandler == old(panelClickHandler)
    {
      var i := 0;
      while i < |draws|
        invariant 0 <= i <= |draws|
        invariant |electrons| == |old(electrons)| + i
        invariant electrons[..|old(electrons)|] == old(electrons)
        invariant forall j :: 0 <= j < i ==> electrons[|old(electrons)| + j] == NewElectron(draws[j].0, draws[j].1)
        invariant controls == old(controls) && hallVoltageArrows == old(hallVoltageArrows)
        invariant plusZ == old(plusZ) && minusZ == old(minusZ)
        invariant isPaused == old(isPaused) && tutorialActive == old(tutorialActive)
        invariant currentTutorialStep == old(currentTutorialStep) && panelClickHandler == old(panelClickHandler)
      {
        electrons := electrons + [NewElectron(draws[i].0, draws[i].1)];
        i := i + 1;
      }
    }

    /** calculateHallVoltage: the voltage, the arrow loop and the charge indicators. */
    method CalculateHallVoltage() returns (u: real)
      modifies this
      ensures u == HallVoltage(controls)
      ensures hallVoltageArrows == UpdateArrows(old(hallVoltageArrows), u, HallCoefficient(controls))
      ensures (plusZ, minusZ) == IndicatorZ(HallCoefficient(controls))
      ensures controls == old(controls) && electrons == old(electrons)
      ensures isPaused == old(isPaused) && tutorialActive == old(tutorialActive)
      ensures currentTutorialStep == old(currentTutorialStep) && panelClickHandler == old(panelClickHandler)
    {
      var current := CurrentValue(controls);
      var magneticField := MagneticFieldValue(controls);
      var hallCoefficient := HallCoefficient(controls);
      u := hallCoefficient * (current * magneticField) / ConductorWidth;
      var i := 0;
      while i < |hallVoltageArrows|
        invariant 0 <= i <= |hallVoltageArrows| == |old(hallVoltageArrows)|
        invariant hallVoltageArrows[i..] == old(hallVoltageArrows)[i..]
        invariant forall j :: 0 <= j < i ==> hallVoltageArrows[j] == UpdateArrow(old(hallVoltageArrows)[j], u, hallCoefficient)
        invariant controls == old(controls) && electrons == old(electrons)
        invariant isPaused == old(isPaused) && tutorialActive == old(tutorialActive)
        invariant currentTutorialStep == old(currentTutorialStep) && panelClickHandler == old(panelClickHandler)
      {
        var arrow := hallVoltageArrows[i];
        var shouldBeVisible := Abs(u) > 0.1;
        var visible := if hallCoefficient < 0.0 then shouldBeVisible && arrow.side == PosZ
                       else shouldBeVisible && arrow.side == NegZ;
        arrow := arrow.(visible := visible);
        if arrow.visible && shouldBeVisible {
          arrow := arrow.(scale := ArrowScale(Abs(u)));
        }
        hallVoltageArrows := hallVoltageArrows[i := arrow];
        i := i + 1;
      }
      UpdateChargeIndicators();
    }

    /** updateChargeIndicators */
    method UpdateChargeIndicators()
      modifies this
      ensures (plusZ, minusZ) == IndicatorZ(HallCoefficient(controls))
      ensures controls == old(controls) && electrons == old(electrons) && hallVoltageArrows == old(hallVoltageArrows)
      ensures isPaused == old(isPaused) && tutorialActive == old(tutorialActive)
      ensures currentTutorialStep == old(currentTutorialStep) && panelClickHandler == old(panelClickHandler)
    {
      var hallCoefficient := HallCoefficient(controls);
      if hallCoefficient < 0.0 {
        plusZ, minusZ := -ConductorWidth / 2.0, ConductorWidth / 2.0;
      } else {
        plusZ, minusZ := ConductorWidth / 2.0, -ConductorWidth / 2.0;
      }
    }

    /** updateElectronPositions: nothing while paused; otherwise the voltage
        is recomputed and every electron takes one step (draws[i] is the
        random value electron i uses if it wraps). */
    method UpdateElectronPositions(draws: seq<real>)
      requires |draws| == |electrons|
      modifies this
      ensures isPaused ==>
        && electrons == old(electrons) && hallVoltageArrows == old(hallVoltageArrows)
        && plusZ == old(plusZ) && minusZ == old(minusZ)
      ensures !isPaused ==>
        && electrons == ElectronsStep(old(electrons), HallVoltage(controls), CurrentValue(controls), draws)
        && hallVoltageArrows == UpdateArrows(old(hallVoltageArrows), HallVoltage(controls), HallCoefficient(controls))
        && (plusZ, minusZ) == IndicatorZ(HallCoefficient(controls))
      ensures controls == old(controls) && isPaused == old(isPaused)
      ensures tutorialActive == old(tutorialActive) && currentTutorialStep == old(currentTutorialStep)
      ensures panelClickHandler == old(panelClickHandler)
    {
      if isPaused {
        return;
      }
      var currentValue := CurrentValue(controls);
      var hallVoltage := CalculateHallVoltage();
      var i := 0;
      while i < |electrons|
        invariant 0 <= i <= |electrons| == |old(electrons)|
        invariant electrons[i..] == old(electrons)[i..]
        invariant forall j :: 0 <= j < i ==> electrons[j] == ElectronStep(old(electrons)[j], hallVoltage, currentValue, draws[j])
        invariant controls == old(controls) && !isPaused
        invariant hallVoltageArrows == UpdateArrows(old(hallVoltageArrows), HallVoltage(controls), HallCoefficient(controls))
        invariant (plusZ, minusZ) == IndicatorZ(HallCoefficient(controls))
        invariant tutorialActive == old(tutorialActive) && currentTutorialStep == old(currentTutorialStep)
        invariant panelClickHandler == old(panelClickHandler)
      {
        electrons := electrons[i := ElectronStep(electrons[i], hallVoltage, currentValue, draws[i])];
        i := i + 1;
      }
    }

    /** Moving the current slider: no handler is attached to it, so only its
        value changes; getCurrentValue reads it on the next frame. */
    method MoveCurrentSlider(v: int)
      requires controls.current.Some?
      modifies this
      ensures controls == old(controls).(current := Some(v))
      ensures electrons == old(electrons) && hallVoltageArrows == old(hallVoltageArrows)
      ensures plusZ == old(plusZ) && minusZ == old(minusZ) && isPaused == old(isPaused)
      ensures tutorialActive == old(tutorialActive) && currentTutorialStep == old(currentTutorialStep)
      ensures panelClickHandler == old(panelClickHandler)
    {
      controls := controls.(current := Some(v));
    }

    /** Moving the magnetic-field slider: likewise only its value changes. */
    method MoveMagneticFieldSlider(v: int)
      requires controls.magneticField.Some?
      modifies this
      ensures controls == old(controls).(magneticField := Some(v))
      ensures electrons == old(electrons) && hallVoltageArrows == old(hallVoltageArrows)
      ensures plusZ == old(plusZ) && minusZ == old(minusZ) && isPaused == old(isPaused)
      ensures tutorialActive == old(tutorialActive) && currentTutorialStep == old(currentTutorialStep)
      ensures panelClickHandler == old(panelClickHandler)
    {
      controls := controls.(magneticField := Some(v));
    }

    /** The pause button. */
    method TogglePause()
      modifies this
      ensures isPaused == !old(isPaused)
      ensures controls == old(controls) && electrons == old(electrons) && hallVoltageArrows == old(hallVoltageArrows)
      ensures plusZ == old(plusZ) && minusZ == old(minusZ)
      ensures tutorialActive == old(tutorialActive) && currentTutorialStep == old(currentTutorialStep)
      ensures panelClickHandler == old(panelClickHandler)
    {
      isPaused := !isPaused;
    }

    /** clearHighlights: colours, lengths and materials are page state; what
        the model keeps is its calculateHallVoltage, which puts the arrows and
        indicators back to what the inputs select. */
    method ClearHighlights()
      modifies this
      ensures hallVoltageArrows == UpdateArrows(old(hallVoltageArrows), HallVoltage(controls), HallCoefficient(controls))
      ensures (plusZ, minusZ) == IndicatorZ(HallCoefficient(controls))
      ensures controls == old(controls) && electrons == old(electrons)
      ensures isPaused == old(isPaused) && tutorialActive == old(tutorialActive)
      ensures currentTutorialStep == old(currentTutorialStep) && panelClickHandler == old(panelClickHandler)
    {
      var _ := CalculateHallVoltage();
    }

    /** highlightObject: of the five targets only the Hall-voltage arrows are
        model state; each is made visible at scale 1.5. */
    method HighlightObject(target: Target)
      modifies this
      ensures hallVoltageArrows == if target == HallVoltageArrows then HighlightArrows(old(hallVoltageArrows)) else old(hallVoltageArrows)
      ensures plusZ == old(plusZ) && minusZ == old(minusZ)
      ensures controls == old(controls) && electrons == old(electrons)
      ensures isPaused == old(isPaused) && tutorialActive == old(tutorialActive)
      ensures currentTutorialStep == old(currentTutorialStep) && panelClickHandler == old(panelClickHandler)
    {
      if target != HallVoltageArrows {
        return;
      }
      var i := 0;
      while i < |hallVoltageArrows|
        invariant 0 <= i <= |hallVoltageArrows| == |old(hallVoltageArrows)|
        invariant hallVoltageArrows[i..] == old(hallVoltageArrows)[i..]
        invariant forall j :: 0 <= j < i ==> hallVoltageArrows[j] == old(hallVoltageArrows)[j].(visible := true, scale := HighlightScale)
        invariant plusZ == old(plusZ) && minusZ == old(minusZ)
        invariant controls == old(controls) && electrons == old(electrons)
        invariant isPaused == old(isPaused) && tutorialActive == old(tutorialActive)
        invariant currentTutorialStep == old(currentTutorialStep) && panelClickHandler == old(panelClickHandler)
      {
        hallVoltageArrows := hallVoltageArrows[i := hallVoltageArrows[i].(visible := true, scale := HighlightScale)];
        i := i + 1;
      }
    }

    /** showTutorialStep: nothing once the tutorial is off; otherwise the
        highlights are cleared, the current panel's target is highlighted and
        the panel's click handler is installed. */
    method ShowTutorialStep()
      requires tutorialActive ==> currentTutorialStep < TutorialStepCount
      modifies this
      ensures controls == old(controls) && electrons == old(electrons)
      ensures isPaused == old(isPaused) && tutorialActive == old(tutorialActive)
      ensures currentTutorialStep == old(currentTutorialStep)
      ensures old(tutorialActive) ==>
        && hallVoltageArrows == TutorialArrows(old(hallVoltageArrows), controls, currentTutorialStep)
        && (plusZ, minusZ) == IndicatorZ(HallCoefficient(controls))
        && panelClickHandler
      ensures !old(tutorialActive) ==>
        && hallVoltageArrows == old(hallVoltageArrows) && plusZ == old(plusZ) && minusZ == old(minusZ)
        && panelClickHandler == old(panelClickHandler)
    {
      if !tutorialActive {
        return;
      }
      ClearHighlights();
      HighlightObject(TutorialTarget(currentTutorialStep));
      panelClickHandler := true;
    }

    /** startTutorial: active at step 0 with the simulation paused; the
        highlights are cleared twice (here and in showTutorialStep), panel 0's
        highlight is the conductor, and the panel's click handler is installed. */
    method StartTutorial()
      modifies this
      ensures Valid()
      ensures tutorialActive && currentTutorialStep == 0 && isPaused && panelClickHandler
      ensures hallVoltageArrows == TutorialArrows(old(hallVoltageArrows), controls, 0)
      ensures (plusZ, minusZ) == IndicatorZ(HallCoefficient(controls))
      ensures controls == old(controls) && electrons == old(electrons)
    {
      tutorialActive := true;
      currentTutorialStep := 0;
      isPaused := true;
      ClearHighlights();
      ShowTutorialStep();
      TutorialArrowsLaw(old(hallVoltageArrows), controls, 0);
    }

    /** The step showTutorialStep renders; always one of the five panels. */
    function ShownStep(): (i: nat)
      requires Valid() && tutorialActive
      reads this
      ensures i < TutorialStepCount
    {
      currentTutorialStep
    }

    /** A click on the tutorial panel: nothing without the handler; with it
        the next step, shown with its highlight while the tutorial is on, and
        past the last panel the handler is removed, the highlights cleared and
        the tutorial ends, which also resumes the simulation.  After a reset
        during the tutorial the handler stays, so clicks go on counting with
        the tutorial inactive (showing nothing) until the count reaches the
        panel count, and the last of them also resumes the simulation. */
    method TutorialClick()
      requires Valid()
      modifies this
      ensures Valid()
      ensures !old(panelClickHandler) ==>
        && tutorialActive == old(tutorialActive) && !panelClickHandler
        && currentTutorialStep == old(currentTutorialStep) && isPaused == old(isPaused)
      ensures old(panelClickHandler) && old(currentTutorialStep) + 1 < TutorialStepCount ==>
        && panelClickHandler && tutorialActive == old(tutorialActive)
        && currentTutorialStep == old(currentTutorialStep) + 1 && isPaused == old(isPaused)
      ensures old(panelClickHandler) && old(currentTutorialStep) + 1 == TutorialStepCount ==>
        !panelClickHandler && !tutorialActive && currentTutorialStep == TutorialStepCount && !isPaused
      ensures old(panelClickHandler) && old(tutorialActive) && old(currentTutorialStep) + 1 < TutorialStepCount ==>
        && hallVoltageArrows == TutorialArrows(old(hallVoltageArrows), controls, currentTutorialStep)
        && (plusZ, minusZ) == IndicatorZ(HallCoefficient(controls))
      ensures old(panelClickHandler) && old(currentTutorialStep) + 1 == TutorialStepCount ==>
        && hallVoltageArrows == UpdateArrows(old(hallVoltageArrows), HallVoltage(controls), HallCoefficient(controls))
        && (plusZ, minusZ) == IndicatorZ(HallCoefficient(controls))
      ensures !(old(panelClickHandler) && (old(tutorialActive) || old(currentTutorialStep) + 1 == TutorialStepCount)) ==>
        hallVoltageArrows == old(hallVoltageArrows) && plusZ == old(plusZ) && minusZ == old(minusZ)
      ensures controls == old(controls) && electrons == old(electrons)
    {
      if !panelClickHandler {
        return;
      }
      currentTutorialStep := currentTutorialStep + 1;
      if currentTutorialStep < TutorialStepCount {
        ShowTutorialStep();
      } else {
        panelClickHandler := false;
        ClearHighlights();
        tutorialActive := false;
        isPaused := false;
      }
    }

    /** resetToDefaults: sliders at 50, material -5.3 (where the elements
        exist), running, tutorial off at step 0, voltage recomputed. */
    method ResetToDefaults()
      modifies this
      ensures Valid()
      ensures controls == DefaultControls(old(controls))
      ensures !isPaused && !tutorialActive && currentTutorialStep == 0
      ensures panelClickHandler == old(panelClickHandler)
      ensures hallVoltageArrows == UpdateArrows(old(hallVoltageArrows), HallVoltage(controls), HallCoefficient(controls))
      ensures (plusZ, minusZ) == IndicatorZ(HallCoefficient(controls))
      ensures electrons == old(electrons)
    {
      controls := DefaultControls(controls);
      isPaused := false;
      tutorialActive := false;
      currentTutorialStep := 0;
      var _ := CalculateHallVoltage();
    }

    /** The material select's change handler. */
    method SelectMaterial(v: real)
      modifies this
      requires controls.material.Some?
      ensures controls == old(controls).(material := Some(v))
      ensures hallVoltageArrows == UpdateArrows(old(hallVoltageArrows), HallVoltage(controls), HallCoefficient(controls))
      ensures (plusZ, minusZ) == IndicatorZ(v / 10.0)
      ensures electrons == old(electrons) && isPaused == old(isPaused)
      ensures tutorialActive == old(tutorialActive) && currentTutorialStep == old(currentTutorialStep)
      ensures panelClickHandler == old(panelClickHandler)
    {
      controls := controls.(material := Some(v));
      var _ := CalculateHallVoltage();
    }
  }

  /** The inputs after resetToDefaults: each existing element set to its default. */
  function DefaultControls(c: Controls): Controls {
    Controls(if c.current.Some? then Some(50) else None,
             if c.magneticField.Some? then Some(50) else None,
             if c.material.Some? then Some(-5.3) else None)
  }

  /** With all inputs present the defaults give I = B = 1 and RH = -0.53, so
      U_H = -0.53 / 1.5: the posZ arrows show, at the smallest scale 0.5, and
      the plus indicator sits at -d/2. */
  lemma DefaultsOnFullPage(c: Controls)
    requires c.current.Some? && c.magneticField.Some? && c.material.Some?
    ensures var d := DefaultControls(c);
      && CurrentValue(d) == 1.0 && MagneticFieldValue(d) == 1.0 && HallCoefficient(d) == -0.53
      && HallVoltage(d) == -0.53 / 1.5
      && ShownSide(HallCoefficient(d)) == PosZ
      && Abs(HallVoltage(d)) > 0.1
      && ArrowScale(Abs(HallVoltage(d))) == 0.5
      && IndicatorZ(HallCoefficient(d)).0 == -ConductorWidth / 2.0
  {
  }

  /** Without arrows (the public/nmain.js object) the visibility loop changes nothing. */
  lemma NoArrowsStayNone(u: real, rh: real)
    ensures UpdateArrows([], u, rh) == []
  {
  }
}
