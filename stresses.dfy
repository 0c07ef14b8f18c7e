/** The stress calculator: the eight formula steps that turn soil, machine and
    depth inputs into the resistance on the shield.  Every step is a closed-form
    expression over reals.  `tan` is the foreign `math.tan` and is passed in
    as a parameter; nothing is assumed about it. */
module StressCalculator {
  import opened Properties

  datatype Option<T> = None | Some(value: T)

  /** Gravitational acceleration, m/s^2. */
  const GRAVITY: real := 9.81

  /** Density of water, kg/m^3. */
  const WATER_DENSITY: real := 1000.0

  function Abs(x: real): (r: real)
    ensures r >= 0.0 && (r == x || r == -x)
  {
    if x < 0.0 then -x else x
  }

  function Max(a: real, b: real): (m: real)
    ensures m >= a && m >= b && (m == a || m == b)
  {
    if a < b then b else a
  }

  // ---------------------------------------------------------------------
  // Step 1: vertical stress

  /** Overburden stress rho * g * h.  It vanishes at the surface, carries the
      sign of depth for a positive density, and is linear in depth and in
      density (lemmas below). */
  function VerticalStress(depth: real, soil: SoilProperties): (sv: real)
    ensures depth == 0.0 || soil.density == 0.0 ==> sv == 0.0
    ensures soil.density >= 0.0 && depth >= 0.0 ==> sv >= 0.0
    ensures soil.density > 0.0 ==> (sv > 0.0 <==> depth > 0.0)
  {
    soil.density * GRAVITY * depth
  }

  /** Vertical stress is additive in depth: stacking two layers of the same
      soil adds their stresses. */
  lemma VerticalStressAdditiveInDepth(h1: real, h2: real, soil: SoilProperties)
    ensures VerticalStress(h1 + h2, soil) == VerticalStress(h1, soil) + VerticalStress(h2, soil)
  {
  }

  /** Scaling depth or density by k scales vertical stress by k; in particular
      doubling either doubles it. */
  lemma VerticalStressScales(k: real, depth: real, soil: SoilProperties)
    ensures VerticalStress(k * depth, soil) == k * VerticalStress(depth, soil)
    ensures VerticalStress(depth, soil.(density := k * soil.density)) == k * VerticalStress(depth, soil)
  {
  }

  // ---------------------------------------------------------------------
  // Step 2: horizontal stress

  /** The three lateral earth pressure methods the calculator recognises. */
  datatype LateralMethod = AtRest | Active | Passive

  /** The label under which each method is selected. */
  function MethodName(m: LateralMethod): (name: string)
  {
    match m
    case AtRest => "At Rest"
    case Active => "Active"
    case Passive => "Passive"
  }

  /** The if/elif string dispatch: only the three exact labels select a
      method; any other string selects nothing. */
  function ParseMethod(name: string): (m: Option<LateralMethod>)
    ensures m.Some? <==> name in {"At Rest", "Active", "Passive"}
    ensures m.Some? ==> MethodName(m.value) == name
  {
    if name == "At Rest" then Some(AtRest)
    else if name == "Active" then Some(Active)
    else if name == "Passive" then Some(Passive)
    else None
  }

  /** Naming a method and dispatching on the name gives the method back. */
  lemma ParseMethodName(m: LateralMethod)
    ensures ParseMethod(MethodName(m)) == Some(m)
  {
  }

  /** Rankine's active coefficient Ka = tan^2(pi/4 - phi/2). */
  function ActiveCoefficient(phi: real, tan: real -> real): (ka: real)
    ensures ka >= 0.0
  {
    tan(PI / 4.0 - phi / 2.0) * tan(PI / 4.0 - phi / 2.0)
  }

  /** Rankine's passive coefficient Kp = tan^2(pi/4 + phi/2). */
  function PassiveCoefficient(phi: real, tan: real -> real): (kp: real)
    ensures kp >= 0.0
  {
    tan(PI / 4.0 + phi / 2.0) * tan(PI / 4.0 + phi / 2.0)
  }

  /** `math.sqrt(ka)`: the non-negative square root of the active coefficient. */
  function ActiveRoot(phi: real, tan: real -> real): (r: real)
    ensures r >= 0.0 && r * r == ActiveCoefficient(phi, tan)
  {
    Abs(tan(PI / 4.0 - phi / 2.0))
  }

  /** `math.sqrt(kp)`: the non-negative square root of the passive coefficient. */
  function PassiveRoot(phi: real, tan: real -> real): (r: real)
    ensures r >= 0.0 && r * r == PassiveCoefficient(phi, tan)
  {
    Abs(tan(PI / 4.0 + phi / 2.0))
  }

  /** Horizontal stress for a recognised method.  At rest it is K0 times the
      vertical stress; cohesion lowers the active stress below Ka * sv and
      raises the passive stress above Kp * sv.  Neither is clamped, so the
      active stress may be negative. */
  function LateralStress(sv: real, soil: SoilProperties, m: LateralMethod, tan: real -> real): (sh: real)
    ensures m == AtRest ==> sh == soil.k0 * sv
    ensures m == AtRest && soil.k0 == 1.0 ==> sh == sv
    ensures m == Active && soil.cohesion >= 0.0 ==> sh <= ActiveCoefficient(soil.frictionAngle, tan) * sv
    ensures m == Passive && soil.cohesion >= 0.0 ==> sh >= PassiveCoefficient(soil.frictionAngle, tan) * sv
    ensures m == Passive && soil.cohesion >= 0.0 && sv >= 0.0 ==> sh >= 0.0
    ensures m != AtRest && soil.cohesion == 0.0 ==> sh == LateralCoefficient(soil, m, tan) * sv
  {
    var phi := soil.frictionAngle;
    match m
    case AtRest => soil.k0 * sv
    case Active =>
      ActiveCoefficient(phi, tan) * sv - 2.0 * soil.cohesion * ActiveRoot(phi, tan)
    case Passive =>
      PassiveCoefficient(phi, tan) * sv + 2.0 * soil.cohesion * PassiveRoot(phi, tan)
  }

  /** The earth pressure coefficient each method scales vertical stress by. */
  function LateralCoefficient(soil: SoilProperties, m: LateralMethod, tan: real -> real): (k: real)
  {
    match m
    case AtRest => soil.k0
    case Active => ActiveCoefficient(soil.frictionAngle, tan)
    case Passive => PassiveCoefficient(soil.frictionAngle, tan)
  }

  /** `calculate_horizontal_stress`: dispatch on the method's label.  A label
      other than the three recognised ones falls through and yields no value. */
  function HorizontalStress(sv: real, soil: SoilProperties, methodName: string, tan: real -> real): (sh: Option<real>)
    ensures sh.None? <==> methodName !in {"At Rest", "Active", "Passive"}
    ensures sh.Some? ==> sh.value == LateralStress(sv, soil, ParseMethod(methodName).value, tan)
  {
    match ParseMethod(methodName)
    case None => None
    case Some(m) => Some(LateralStress(sv, soil, m, tan))
  }

  /** However large the cohesion, the active stress on a positive overburden
      never drops below -c^2 / sv, whatever tan returns. */
  lemma ActiveStressLowerBound(sv: real, soil: SoilProperties, tan: real -> real)
    requires sv > 0.0
    ensures LateralStress(sv, soil, Active, tan) >= -(soil.cohesion * soil.cohesion) / sv
  {
    var c := soil.cohesion;
    var s := ActiveRoot(soil.frictionAngle, tan);
    var sh := LateralStress(sv, soil, Active, tan);
    assert sh == s * s * sv - 2.0 * c * s;
    CompleteSquare(s, sv, c);
    SquareNonnegative(s * sv - c);
    assert sh * sv + c * c >= 0.0;
    DivideByPositive(sh, sv, c * c);
  }

  /** The -c^2 / sv floor is reached: when sqrt(Ka) equals c / sv the active
      stress is exactly -c^2 / sv, which is negative for any non-zero cohesion.
      The active stress is therefore not clamped at zero. */
  lemma ActiveBoundAttained(sv: real, soil: SoilProperties, tan: real -> real)
    requires sv > 0.0
    requires ActiveRoot(soil.frictionAngle, tan) == soil.cohesion / sv
    ensures LateralStress(sv, soil, Active, tan) == -(soil.cohesion * soil.cohesion) / sv
    ensures soil.cohesion != 0.0 ==> LateralStress(sv, soil, Active, tan) < 0.0
  {
    assert (soil.cohesion / sv) * sv == soil.cohesion;
  }

  /** s^2 sv - 2cs, scaled by sv and shifted by c^2, is the square (s sv - c)^2. */
  lemma CompleteSquare(s: real, sv: real, c: real)
    ensures (s * s * sv - 2.0 * c * s) * sv + c * c == (s * sv - c) * (s * sv - c)
  {
  }

  lemma SquareNonnegative(x: real)
    ensures x * x >= 0.0
  {
  }

  /** Dividing a lower bound on a product by its positive factor. */
  lemma DivideByPositive(a: real, b: real, p: real)
    requires b > 0.0 && a * b + p >= 0.0
    ensures a >= -p / b
  {
  }

  /** At zero friction angle, when tan(pi/4) has magnitude 1, both Rankine
      coefficients are 1 and cohesion shifts the stress by exactly 2c. */
  lemma ZeroFrictionAngle(sv: real, soil: SoilProperties, tan: real -> real)
    requires soil.frictionAngle == 0.0
    requires Abs(tan(PI / 4.0)) == 1.0
    ensures LateralStress(sv, soil, Active, tan) == sv - 2.0 * soil.cohesion
    ensures LateralStress(sv, soil, Passive, tan) == sv + 2.0 * soil.cohesion
  {
  }

  // ---------------------------------------------------------------------
  // Step 3: pore pressure

  /** Hydrostatic pore pressure: none at or above the water table, water's
      unit weight times the head below it. */
  function PorePressure(depth: real, waterTableDepth: real): (u: real)
    ensures u >= 0.0
    ensures u == 0.0 <==> depth <= waterTableDepth
    ensures u == WATER_DENSITY * GRAVITY * Max(0.0, depth - waterTableDepth)
  {
    if depth > waterTableDepth then WATER_DENSITY * GRAVITY * (depth - waterTableDepth)
    else 0.0
  }

  /** Pore pressure never decreases with depth. */
  lemma PorePressureMonotone(d1: real, d2: real, waterTableDepth: real)
    requires d1 <= d2
    ensures PorePressure(d1, waterTableDepth) <= PorePressure(d2, waterTableDepth)
  {
  }

  // ---------------------------------------------------------------------
  // Steps 4 to 8: effective stress, area, normal force, friction, resistance

  /** Terzaghi's split: the total stress is the effective stress plus the pore pressure. */
  function EffectiveStress(totalStress: real, porePressure: real): (s: real)
    ensures s + porePressure == totalStress
    ensures porePressure >= 0.0 ==> s <= totalStress
  {
    totalStress - porePressure
  }

  /** Lateral area of the cylindrical shield (no end caps). */
  function ShieldSurfaceArea(tbm: TbmProperties): (a: real)
    ensures tbm.diameter >= 0.0 && tbm.length >= 0.0 ==> a >= 0.0
    ensures tbm.diameter > 0.0 && tbm.length > 0.0 ==> a > 0.0
    ensures a == 0.0 <==> tbm.diameter == 0.0 || tbm.length == 0.0
  {
    PI * tbm.diameter * tbm.length
  }

  /** Normal force on the shield skin: the face pressure is added to the
      effective stress before scaling by the shield area, so the force vanishes
      exactly when the two cancel or the shield has no area, and pushes outward
      whenever their sum is non-negative. */
  function NormalForce(effectiveStress: real, tbm: TbmProperties): (n: real)
    ensures n == 0.0 <==> effectiveStress + tbm.facePressure == 0.0 || ShieldSurfaceArea(tbm) == 0.0
    ensures tbm.diameter >= 0.0 && tbm.length >= 0.0 && effectiveStress + tbm.facePressure >= 0.0 ==> n >= 0.0
  {
    var area := ShieldSurfaceArea(tbm);
    (effectiveStress + tbm.facePressure) * area
  }

  /** Coulomb friction: the coefficient is the ratio of friction to normal
      force, and there is no friction exactly when either is zero. */
  function ShieldFriction(normalForce: real, frictionCoefficient: real): (f: real)
    ensures normalForce != 0.0 ==> f / normalForce == frictionCoefficient
    ensures f == 0.0 <==> normalForce == 0.0 || frictionCoefficient == 0.0
    ensures frictionCoefficient >= 0.0 && normalForce >= 0.0 ==> f >= 0.0
  {
    frictionCoefficient * normalForce
  }

  /** Friction is linear in the normal force: the friction of two loads is the
      sum of their frictions, and scaling the load by k scales the friction by k. */
  lemma ShieldFrictionLinear(n1: real, n2: real, k: real, frictionCoefficient: real)
    ensures ShieldFriction(n1 + n2, frictionCoefficient)
         == ShieldFriction(n1, frictionCoefficient) + ShieldFriction(n2, frictionCoefficient)
    ensures ShieldFriction(k * n1, frictionCoefficient) == k * ShieldFriction(n1, frictionCoefficient)
  {
  }

  /** With a non-negative coefficient, friction never decreases as the normal
      force grows. */
  lemma ShieldFrictionMonotone(n1: real, n2: real, frictionCoefficient: real)
    requires frictionCoefficient >= 0.0 && n1 <= n2
    ensures ShieldFriction(n1, frictionCoefficient) <= ShieldFriction(n2, frictionCoefficient)
  {
  }

  /** Total resistance: shield friction plus the machine's weight. */
  function TotalResistance(shieldFriction: real, tbm: TbmProperties): (r: real)
    ensures r - tbm.weight == shieldFriction
    ensures r >= tbm.weight <==> shieldFriction >= 0.0
  {
    shieldFriction + tbm.weight
  }

  /** Steps 6 to 8 with non-negative friction coefficient and shield
      dimensions: raising the face pressure by d raises the total resistance by
      exactly mu * d * pi * D * L, so it never lowers it. */
  lemma ResistanceMonotoneInFacePressure(effectiveStress: real, tbm: TbmProperties, frictionCoefficient: real, facePressure: real)
    requires frictionCoefficient >= 0.0 && tbm.diameter >= 0.0 && tbm.length >= 0.0
    requires tbm.facePressure <= facePressure
    ensures
      var raised := tbm.(facePressure := facePressure);
      var before := TotalResistance(ShieldFriction(NormalForce(effectiveStress, tbm), frictionCoefficient), tbm);
      var after := TotalResistance(ShieldFriction(NormalForce(effectiveStress, raised), frictionCoefficient), raised);
      && after - before == frictionCoefficient * (facePressure - tbm.facePressure) * ShieldSurfaceArea(tbm)
      && before <= after
  {
    // Dafny can prove this unaided on most solver seeds but not all; the
    // sign facts below keep it stable.
    var area := ShieldSurfaceArea(tbm);
    var rise := facePressure - tbm.facePressure;
    ProductNonnegative(rise, area);
    ProductNonnegative(frictionCoefficient, rise * area);
  }

  lemma ProductNonnegative(a: real, b: real)
    requires a >= 0.0 && b >= 0.0
    ensures a * b >= 0.0
  {
  }
}
