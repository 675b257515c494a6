/** The request and response records of the backend API. Pydantic field
    constraints become validity predicates; parsing and coercion are not
    modelled. */
module Models {
  import opened Runtime

  /** A point on the globe, in degrees. */
  datatype ImpactLocation = ImpactLocation(lat: real, lng: real)

  /** Both coordinates lie in their closed ranges. */
  predicate ValidImpactLocation(loc: ImpactLocation)
  {
    -90.0 <= loc.lat <= 90.0 && -180.0 <= loc.lng <= 180.0
  }

  /** The body of a full simulation request: size (m), density (kg/m³),
      velocity (km/s), entry angle (degrees), where it lands, and whether it
      lands in water (an optional flag that defaults to false). */
  datatype ImpactParameters = ImpactParameters(
    size: real,
    density: real,
    velocity: real,
    angle: real,
    impactLocation: ImpactLocation,
    isWaterImpact: Option<bool> := Some(false))

  /** Size, density and velocity strictly positive; the angle in the closed
      range [0, 90]; the location valid. */
  predicate ValidImpactParameters(p: ImpactParameters)
  {
    0.0 < p.size && 0.0 < p.density && 0.0 < p.velocity
    && 0.0 <= p.angle <= 90.0
    && ValidImpactLocation(p.impactLocation)
  }

  /** The outcome of each stage of the full simulation. */
  datatype EnergyResult = EnergyResult(joules: real, megatonsTnt: real)
  datatype CraterResult = CraterResult(diameter: real, depth: real)
  datatype SeismicResult = SeismicResult(magnitude: real, radius: real)
  datatype TsunamiResult = TsunamiResult(waveHeight: real, affectedRadius: real)
  datatype AtmosphericResult = AtmosphericResult(fireballRadius: real, thermalRadiation: real, overpressure: real)
  datatype CasualtiesResult = CasualtiesResult(estimated: int, affectedPopulation: int)

  /** The full simulation response: four required stages, and a tsunami and a
      casualty estimate that may be absent (and are absent unless given). */
  datatype ImpactResults = ImpactResults(
    energy: EnergyResult,
    crater: CraterResult,
    seismic: SeismicResult,
    tsunami: Option<TsunamiResult> := None,
    atmospheric: AtmosphericResult,
    casualties: Option<CasualtiesResult> := None)

  /** Keplerian elements; declared by the API but never computed. */
  datatype OrbitalData = OrbitalData(a: real, e: real, i: real, omega: real, ascendingNode: real, meanAnomaly: real)

  /** A deflection request: the strategy name, the time available (days) and
      the asteroid's mass (kg). No field is constrained, so zero and negative
      times and masses are accepted. */
  datatype DeflectionStrategy = DeflectionStrategy(kind: string, timeAvailable: real, asteroidMass: real)

  /** Velocity change (m/s), probability of success, number of missions, and
      orbital data that defaults to absent. */
  datatype DeflectionResult = DeflectionResult(
    deltaV: real,
    successProbability: real,
    requiredMissions: int,
    newOrbitalData: Option<OrbitalData> := None)

  /** The entry angle may be 0 and 90 (both ends are inclusive), while size,
      density and velocity must be strictly positive; a location is rejected
      as soon as one coordinate leaves its range. */
  lemma ParameterBoundaries(loc: ImpactLocation, x: real)
    requires ValidImpactLocation(loc)
    ensures ValidImpactParameters(ImpactParameters(1.0, 1.0, 1.0, 0.0, loc))
    ensures ValidImpactParameters(ImpactParameters(1.0, 1.0, 1.0, 90.0, loc))
    ensures !ValidImpactParameters(ImpactParameters(0.0, 1.0, 1.0, 45.0, loc))
    ensures !ValidImpactParameters(ImpactParameters(1.0, 0.0, 1.0, 45.0, loc))
    ensures !ValidImpactParameters(ImpactParameters(1.0, 1.0, 0.0, 45.0, loc))
    ensures (90.0 < x || x < -90.0) ==> !ValidImpactLocation(loc.(lat := x))
    ensures (180.0 < x || x < -180.0) ==> !ValidImpactLocation(loc.(lng := x))
  {
  }

  /** A request that omits the water flag is a land impact. */
  lemma WaterFlagDefault(size: real, density: real, velocity: real, angle: real, loc: ImpactLocation)
    ensures ImpactParameters(size, density, velocity, angle, loc).isWaterImpact == Some(false)
  {
  }

  /** A results record built without the optional stages has neither a
      tsunami nor a casualty estimate, while the four required stages are
      whatever was given. */
  lemma OptionalStagesDefault(e: EnergyResult, c: CraterResult, s: SeismicResult, a: AtmosphericResult)
    ensures var r := ImpactResults(e, c, s, atmospheric := a);
      r.tsunami == None && r.casualties == None
      && r.energy == e && r.crater == c && r.seismic == s && r.atmospheric == a
  {
  }
}
