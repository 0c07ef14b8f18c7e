/** The results aggregator: runs the eight calculator steps in their fixed
    order, feeding the horizontal stress in as the total stress of the
    effective-stress step, and keeps every intermediate value. */
module ResultsAggregator {
  import opened Properties
  import opened StressCalculator

  /** Every intermediate and final value of one evaluation (Pa or N). */
  datatype CalculationResult = CalculationResult(
    verticalStress: real,
    horizontalStress: real,
    porePressure: real,
    effectiveStress: real,
    normalForce: real,
    shieldFriction: real,
    totalResistance: real
  )

  /** The calculation chain.  An unrecognised method label leaves the
      horizontal stress undefined, and the chain then produces no result. */
  function Evaluate(
    soil: SoilProperties, tbm: TbmProperties, depth: real, waterTableDepth: real,
    frictionCoefficient: real, methodName: string, tan: real -> real
  ): (res: Option<CalculationResult>)
    ensures res.None? <==> methodName !in {"At Rest", "Active", "Passive"}
    ensures res.Some? ==>
      var r := res.value;
      && r.verticalStress == soil.density * GRAVITY * depth
      && r.horizontalStress == LateralStress(r.verticalStress, soil, ParseMethod(methodName).value, tan)
      && r.porePressure == WATER_DENSITY * GRAVITY * Max(0.0, depth - waterTableDepth)
      && r.effectiveStress + r.porePressure == r.horizontalStress
      && r.normalForce == (r.effectiveStress + tbm.facePressure) * (PI * tbm.diameter * tbm.length)
      && r.shieldFriction == frictionCoefficient * r.normalForce
      && r.totalResistance == r.shieldFriction + tbm.weight
  {
    var verticalStress := VerticalStress(depth, soil);
    match HorizontalStress(verticalStress, soil, methodName, tan)
    case None => None
    case Some(horizontalStress) =>
      var porePressure := PorePressure(depth, waterTableDepth);
      var effectiveStress := EffectiveStress(horizontalStress, porePressure);
      var normalForce := NormalForce(effectiveStress, tbm);
      var shieldFriction := ShieldFriction(normalForce, frictionCoefficient);
      var totalResistance := TotalResistance(shieldFriction, tbm);
      Some(CalculationResult(
        verticalStress, horizontalStress, porePressure, effectiveStress,
        normalForce, shieldFriction, totalResistance))
  }

  /** Because the horizontal stress is what the effective-stress step receives,
      the effective stress equals it at or above the water table and is strictly
      smaller below it. */
  lemma EffectiveStressAgainstWaterTable(
    soil: SoilProperties, tbm: TbmProperties, depth: real, waterTableDepth: real,
    frictionCoefficient: real, methodName: string, tan: real -> real)
    requires methodName in {"At Rest", "Active", "Passive"}
    ensures var r := Evaluate(soil, tbm, depth, waterTableDepth, frictionCoefficient, methodName, tan).value;
      && (depth <= waterTableDepth ==> r.effectiveStress == r.horizontalStress)
      && (depth > waterTableDepth ==> r.effectiveStress < r.horizontalStress)
  {
  }

  /** With non-negative friction coefficient and shield dimensions, the shield
      friction never pushes the machine forward: whenever the effective stress
      and face pressure together press on the shield, the resistance is at
      least the machine's weight. */
  lemma ResistanceAtLeastWeight(
    soil: SoilProperties, tbm: TbmProperties, depth: real, waterTableDepth: real,
    frictionCoefficient: real, methodName: string, tan: real -> real)
    requires methodName in {"At Rest", "Active", "Passive"}
    requires frictionCoefficient >= 0.0 && tbm.diameter >= 0.0 && tbm.length >= 0.0
    ensures var r := Evaluate(soil, tbm, depth, waterTableDepth, frictionCoefficient, methodName, tan).value;
      r.effectiveStress + tbm.facePressure >= 0.0 ==> r.totalResistance >= tbm.weight
  {
  }

  /** The dashboard's default inputs with the At Rest method give exact
      stresses 176580, 88290, 49050 and 39240 Pa, and forces that are exact
      multiples of pi (about 45.10 MN normal force and 18.53 MN resistance). */
  lemma DefaultScenario(tan: real -> real)
    ensures
      var soil := NewSoilProperties(1800.0, 5000.0, 30.0, 0.5);
      var tbm := TbmProperties(6.0, 10.0, 5000000.0, 200000.0);
      var r := Evaluate(soil, tbm, 10.0, 5.0, 0.3, "At Rest", tan);
      && r.Some?
      && r.value.verticalStress == 176580.0
      && r.value.horizontalStress == 88290.0
      && r.value.porePressure == 49050.0
      && r.value.effectiveStress == 39240.0
      && r.value.normalForce == 14354400.0 * PI
      && r.value.shieldFriction == 4306320.0 * PI
      && r.value.totalResistance == 4306320.0 * PI + 5000000.0
      && 45095677.0 < r.value.normalForce < 45095678.0
      && 18528703.0 < r.value.totalResistance < 18528704.0
  {
  }
}
