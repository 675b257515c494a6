/** The `/simulate` and `/energy-estimate` handlers: they compose the stages
    of `ImpactSimulator` and turn any exception into a 500 response. */
module SimulationRouter {
  import opened Runtime
  import opened Models
  import opened ImpactSimulator

  /** A Python value passed as a positional argument. */
  datatype PyValue = Float(x: real) | Bool(b: bool) | NoneValue

  /** Python truthiness: `None`, `False` and `0.0` are false. */
  predicate Truthy(v: PyValue)
  {
    match v
    case Float(x) => x != 0.0
    case Bool(b) => b
    case NoneValue => false
  }

  /** The value as an operand of float arithmetic: `bool` is an `int`
      subclass, `None` raises TypeError. */
  function Number(v: PyValue): (r: Result<real>)
    ensures r.Err? <==> v.NoneValue?
  {
    match v
    case Float(x) => Ok(x)
    case Bool(b) => Ok(if b then 1.0 else 0.0)
    case NoneValue => Err(NotNumber)
  }

  /** The optional `is_water_impact` field as a Python value. */
  function WaterFlag(flag: Option<bool>): PyValue
  {
    match flag
    case Some(b) => Bool(b)
    case None => NoneValue
  }

  /** `ImpactSimulator.calculate_crater_size(*args)`: Python binds the
      positional arguments to `size, density, velocity, is_water=False`;
      fewer than three leaves the rest missing, more than four is too many. */
  function CallCraterSize(m: Maths, args: seq<PyValue>): (r: Result<(real, real)>)
    ensures |args| < 3 ==> r == Err(MissingArguments(["size", "density", "velocity"][|args|..]))
    ensures |args| > 4 ==> r == Err(TooManyArguments)
    ensures 3 <= |args| <= 4 && args[0].Float? && args[1].Float? && args[2].Float? ==>
      r == CalculateCraterSize(m, args[0].x, args[1].x, args[2].x, |args| == 4 && Truthy(args[3]))
  {
    if |args| < 3 then Err(MissingArguments(["size", "density", "velocity"][|args|..]))
    else if |args| > 4 then Err(TooManyArguments)
    else
      var size :- Number(args[0]);
      var density :- Number(args[1]);
      var velocity :- Number(args[2]);
      CalculateCraterSize(m, size, density, velocity, |args| == 4 && Truthy(args[3]))
  }

  /** Which crater call the pipeline makes: the one in the handler, or the one
      its comments and the stage's signature call for. */
  datatype CraterCallSite = AsWritten | Corrected

  function CraterArguments(p: ImpactParameters, energyMt: real, site: CraterCallSite): seq<PyValue>
  {
    match site
    case AsWritten => [Float(energyMt), WaterFlag(p.isWaterImpact)]
    case Corrected => [Float(p.size), Float(p.density), Float(p.velocity), WaterFlag(p.isWaterImpact)]
  }

  /** The body of the `try` in `simulate_impact`: energy (at the default
      angle, since the request's angle is not passed), crater, seismic, the
      tsunami only for a truthy water flag, atmospheric effects, and casualties
      in the overpressure zone at the default population density. */
  function Pipeline(m: Maths, p: ImpactParameters, site: CraterCallSite): Result<ImpactResults>
  {
    var (energyJoules, energyMt) := CalculateImpactEnergy(m, p.size, p.density, p.velocity);
    var crater :- CallCraterSize(m, CraterArguments(p, energyMt, site));
    var (seismicMagnitude, seismicRadius) := CalculateSeismicEffects(m, energyJoules);
    var tsunami :-
      if Truthy(WaterFlag(p.isWaterImpact)) then
        var waves :- CalculateTsunamiEffects(m, energyMt);
        Ok(Some(TsunamiResult(waves.0, waves.1)))
      else Ok(None);
    var atmosphere :- CalculateAtmosphericEffects(m, energyMt);
    var (casualties, affectedPopulation) := EstimateCasualties(m, atmosphere.2);
    Ok(ImpactResults(
      EnergyResult(energyJoules, energyMt),
      CraterResult(crater.0, crater.1),
      SeismicResult(seismicMagnitude, seismicRadius),
      tsunami,
      AtmosphericResult(atmosphere.0, atmosphere.1, atmosphere.2),
      Some(CasualtiesResult(casualties, affectedPopulation))))
  }

  /** `POST /simulate` as written: the crater stage is called with two
      arguments, so every request ends in the 500 branch. */
  function SimulateImpactAsWritten(m: Maths, p: ImpactParameters): (r: Result<ImpactResults>)
    ensures r.Err? ==> r.error.Http? && r.error.status == 500
  {
    ServerError("Simulation error: ", Pipeline(m, p, AsWritten))
  }

  /** `POST /simulate` with the crater stage given size, density, velocity and
      the water flag. */
  function SimulateImpact(m: Maths, p: ImpactParameters): (r: Result<ImpactResults>)
    ensures r.Err? ==> r.error.Http? && r.error.status == 500 && r.error.detail.Caused?
  {
    ServerError("Simulation error: ", Pipeline(m, p, Corrected))
  }

  /** Whatever the request, the handler as written answers with a 500 whose
      detail is the TypeError for the missing `velocity` argument. */
  lemma SimulateImpactAsWrittenAlwaysFails(m: Maths, p: ImpactParameters)
    ensures SimulateImpactAsWritten(m, p)
      == Err(Http(500, Caused("Simulation error: ", MissingArguments(["velocity"]))))
  {
    assert ["size", "density", "velocity"][2..] == ["velocity"];
  }

  /** The request's angle never reaches any stage: two requests that differ
      only in the angle get the same answer. */
  lemma SimulationIgnoresAngle(m: Maths, p: ImpactParameters, angle: real)
    ensures SimulateImpact(m, p.(angle := angle)) == SimulateImpact(m, p)
    ensures SimulateImpactAsWritten(m, p.(angle := angle)) == SimulateImpactAsWritten(m, p)
  {
  }

  /** With the call fixed, every valid request succeeds, and each field is
      the output of its stage run on the request: the energy is the
      45-degree energy and non-negative; the crater is the crater stage on
      the request's size, density, velocity and water flag, at most 50 sizes
      wide and at most a fifth as deep; the seismic figures are the seismic
      stage on that energy and in range; the tsunami is present exactly for a
      water impact and is then the tsunami stage's answer; the atmospheric
      radii are the atmospheric stage's; and the casualty pair is the
      casualty stage on the overpressure radius, stored in the stage's order
      (estimate, affected) with the estimate at most the affected
      population. */
  lemma SimulateImpactSucceeds(m: Maths, p: ImpactParameters)
    requires Sound(m)
    requires ValidImpactParameters(p)
    ensures var r := SimulateImpact(m, p);
      && r.Ok?
      && r.value.energy.joules == CalculateImpactEnergy(m, p.size, p.density, p.velocity, 45.0).0
      && 0.0 <= r.value.energy.joules && 0.0 <= r.value.energy.megatonsTnt
      && 0.0 <= r.value.crater.diameter <= 50.0 * p.size
      && 0.0 <= r.value.crater.depth <= r.value.crater.diameter / 5.0
      && 0.0 <= r.value.seismic.magnitude <= 10.0
      && 10.0 <= r.value.seismic.radius <= 2000.0
      && (r.value.tsunami.Some? <==> p.isWaterImpact == Some(true))
      && (r.value.tsunami.Some? ==> 0.0 <= r.value.tsunami.value.waveHeight <= 500.0
                                    && 0.0 <= r.value.tsunami.value.affectedRadius <= 10000.0)
      && r.value.casualties.Some?
      && r.value.casualties.value.estimated
         == EstimateCasualties(m, r.value.atmospheric.overpressure).0
      && 0 <= r.value.casualties.value.estimated <= r.value.casualties.value.affectedPopulation
    ensures var r := SimulateImpact(m, p);
      var (joules, mt) := CalculateImpactEnergy(m, p.size, p.density, p.velocity, 45.0);
      && r.Ok?
      && r.value.energy.megatonsTnt == mt
      && (r.value.crater.diameter, r.value.crater.depth)
         == CalculateCraterSize(m, p.size, p.density, p.velocity, p.isWaterImpact == Some(true)).value
      && (r.value.seismic.magnitude, r.value.seismic.radius) == CalculateSeismicEffects(m, joules)
      && (r.value.tsunami.Some? ==>
            (r.value.tsunami.value.waveHeight, r.value.tsunami.value.affectedRadius)
            == CalculateTsunamiEffects(m, mt).value)
      && (r.value.atmospheric.fireballRadius, r.value.atmospheric.thermalRadiation, r.value.atmospheric.overpressure)
         == CalculateAtmosphericEffects(m, mt).value
      && r.value.casualties.Some?
      && (r.value.casualties.value.estimated, r.value.casualties.value.affectedPopulation)
         == EstimateCasualties(m, r.value.atmospheric.overpressure)
  {
    var water := Truthy(WaterFlag(p.isWaterImpact));
    assert water <==> p.isWaterImpact == Some(true);
    assert 0.0 <= m.sin(Radians(m, 45.0));
    EnergyNonNegative(m, p.size, p.density, p.velocity, 45.0);
    var (joules, mt) := CalculateImpactEnergy(m, p.size, p.density, p.velocity);
    CraterWellFormed(m, p.size, p.density, p.velocity, water);
    TsunamiWithinRange(m, mt);
    AtmosphericNonNegative(m, mt);
    var atmosphere := CalculateAtmosphericEffects(m, mt).value;
    CasualtiesBounded(m, atmosphere.2, 50.0);
  }

  /** The `/energy-estimate` answer. */
  datatype EnergyEstimate = EnergyEstimate(joules: real, megatonsTnt: real, hiroshimaEquivalent: real)

  /** `GET /energy-estimate`: the stage's energy at the default angle, and the
      number of 15-kiloton Hiroshima bombs it equals. Nothing in it can raise,
      so its 500 branch is unreachable in this model. */
  function EstimateEnergy(m: Maths, size: real, density: real, velocity: real): (r: EnergyEstimate)
    ensures r.megatonsTnt * JoulesPerMegaton == r.joules
    ensures r.hiroshimaEquivalent * 0.015 == r.megatonsTnt
    ensures (r.joules, r.megatonsTnt) == CalculateImpactEnergy(m, size, density, velocity, 45.0)
  {
    var (energyJoules, energyMt) := CalculateImpactEnergy(m, size, density, velocity);
    EnergyEstimate(energyJoules, energyMt, energyMt / 0.015)
  }
}
