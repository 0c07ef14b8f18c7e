/** The two input bundles of the shield friction calculation: the soil
    parameters and the tunnel-boring-machine geometry and loads.  Both are
    plain values, built once per calculation and never changed. */
module Properties {

  /** Python's `math.pi`, written with the digits its `repr` prints.  Every
      contract except the decimal bounds of the default scenario in
      ResultsAggregator needs only that it is a fixed positive real; those
      bounds rely on its first eight digits. */
  const PI: real := 3.141592653589793

  /** Degrees to radians, as `math.radians` computes it. */
  function Radians(deg: real): (rad: real)
    ensures Degrees(rad) == deg
    ensures deg == 0.0 <==> rad == 0.0
    ensures 0.0 <= deg < 90.0 ==> 0.0 <= rad < PI / 2.0
  {
    deg * PI / 180.0
  }

  /** Radians back to degrees: the reference against which Radians is checked. */
  function Degrees(rad: real): (deg: real)
  {
    rad * 180.0 / PI
  }

  /** Soil parameters; `frictionAngle` is held in radians. */
  datatype SoilProperties = SoilProperties(
    density: real,       // kg/m^3
    cohesion: real,      // Pa
    frictionAngle: real, // radians
    k0: real             // at-rest lateral earth pressure coefficient
  )

  /** Machine parameters, stored exactly as given. */
  datatype TbmProperties = TbmProperties(
    diameter: real,     // m
    length: real,       // m
    weight: real,       // N
    facePressure: real  // Pa
  )

  /** Builds the soil bundle from a friction angle given in degrees: the angle
      is converted once, here, and every other field is kept as given. */
  function NewSoilProperties(density: real, cohesion: real, frictionAngleDeg: real, k0: real): (soil: SoilProperties)
    ensures soil.density == density && soil.cohesion == cohesion && soil.k0 == k0
    ensures Degrees(soil.frictionAngle) == frictionAngleDeg
    ensures 0.0 <= frictionAngleDeg < 90.0 ==> 0.0 <= soil.frictionAngle < PI / 2.0
  {
    SoilProperties(density, cohesion, Radians(frictionAngleDeg), k0)
  }
}
