/** The deflection calculators: three rational formulas for the velocity
    change, success probability and mission count of a kinetic impactor, a
    gravity tractor and laser ablation, the dispatch on the strategy name, and
    the static strategy catalogue. */
module Deflection {
  import opened Runtime
  import opened Models

  /** How far the time available goes towards the days a strategy needs:
      t/days, saturated at 1. */
  function Readiness(timeAvailable: real, daysNeeded: real): (f: real)
    requires 0.0 < daysNeeded
    ensures f <= 1.0
    ensures daysNeeded <= timeAvailable ==> f == 1.0
    ensures 0.0 <= timeAvailable ==> 0.0 <= f
    ensures timeAvailable < 0.0 ==> f < 0.0
    ensures timeAvailable < daysNeeded ==> f < 1.0
  {
    Min(timeAvailable / daysNeeded, 1.0)
  }

  const KineticDaysNeeded: real := 180.0
  const GravityDaysNeeded: real := 365.0
  const LaserDaysNeeded: real := 270.0

  /** `calculate_kinetic_impactor`: a 1000 kg impactor at 10 km/s with a
      momentum enhancement of 2; one mission per 100 impactor masses of
      asteroid, at least one. A zero mass divides by zero. */
  function KineticImpactor(s: DeflectionStrategy): (r: Result<DeflectionResult>)
    ensures r.Err? <==> s.asteroidMass == 0.0
    ensures r.Err? ==> r.error == ZeroDivision
    ensures r.Ok? ==> r.value.deltaV * s.asteroidMass == 2.0e7
    ensures r.Ok? ==> r.value.successProbability == Readiness(s.timeAvailable, KineticDaysNeeded) * 0.85
    ensures r.Ok? ==> r.value.requiredMissions == MaxInt(1, Trunc(s.asteroidMass / 100000.0))
    ensures r.Ok? ==> r.value.newOrbitalData == None
  {
    var impactorMass := 1000.0;
    var impactorVelocity := 10000.0;
    var beta := 2.0;
    if s.asteroidMass == 0.0 then Err(ZeroDivision)
    else
      var deltaV := (beta * impactorMass * impactorVelocity) / s.asteroidMass;
      var successProbability := Readiness(s.timeAvailable, KineticDaysNeeded) * 0.85;
      var requiredMissions := MaxInt(1, Trunc(s.asteroidMass / (impactorMass * 100.0)));
      Ok(DeflectionResult(deltaV, successProbability, requiredMissions))
  }

  /** `calculate_gravity_tractor`: a 20 t spacecraft hovering 100 m away pulls
      the asteroid for the whole time available; always one mission. A zero
      mass divides by zero when the force is turned into an acceleration. */
  function GravityTractor(s: DeflectionStrategy): (r: Result<DeflectionResult>)
    ensures r.Err? <==> s.asteroidMass == 0.0
    ensures r.Err? ==> r.error == ZeroDivision
    ensures r.Ok? ==> r.value.successProbability == Readiness(s.timeAvailable, GravityDaysNeeded) * 0.95
    ensures r.Ok? ==> r.value.requiredMissions == 1
    ensures r.Ok? ==> r.value.newOrbitalData == None
  {
    var spacecraftMass := 20000.0;
    var distance := 100.0;
    var force := 6.67430e-11 * spacecraftMass * s.asteroidMass / (distance * distance);
    if s.asteroidMass == 0.0 then Err(ZeroDivision)
    else
      var acceleration := force / s.asteroidMass;
      var timeSeconds := s.timeAvailable * 24.0 * 60.0 * 60.0;
      var deltaV := acceleration * timeSeconds;
      Ok(DeflectionResult(deltaV, Readiness(s.timeAvailable, GravityDaysNeeded) * 0.95, 1))
  }

  /** The tractor's velocity change does not depend on the asteroid's mass:
      the mass cancels between the force and the acceleration, leaving
      G·20000/100² times the time in seconds (G = 6.67430e-11 m³/(kg·s²)). */
  lemma GravityTractorMassIndependent(s: DeflectionStrategy)
    requires s.asteroidMass != 0.0
    ensures GravityTractor(s).Ok?
    ensures GravityTractor(s).value.deltaV == 6.67430e-11 * 20000.0 / 10000.0 * (s.timeAvailable * 86400.0)
  {
    var mass := s.asteroidMass;
    var c := 6.67430e-11 * 20000.0 / (100.0 * 100.0);
    assert 6.67430e-11 * 20000.0 * mass / (100.0 * 100.0) == c * mass;
    assert (c * mass) / mass == c;
  }

  /** `calculate_laser_ablation`: a 100 kW laser at 10% efficiency gives a
      thrust of 1e4/3e8 N; one mission per 1e9 kg, at least one. A zero mass
      divides by zero. */
  function LaserAblation(s: DeflectionStrategy): (r: Result<DeflectionResult>)
    ensures r.Err? <==> s.asteroidMass == 0.0
    ensures r.Err? ==> r.error == ZeroDivision
    ensures r.Ok? ==> r.value.deltaV * s.asteroidMass == 100000.0 * 0.1 / 3e8 * (s.timeAvailable * 86400.0)
    ensures r.Ok? ==> r.value.successProbability == Readiness(s.timeAvailable, LaserDaysNeeded) * 0.70
    ensures r.Ok? ==> r.value.requiredMissions == MaxInt(1, Trunc(s.asteroidMass / 1e9))
    ensures r.Ok? ==> r.value.newOrbitalData == None
  {
    var laserPower := 100000.0;
    var efficiency := 0.1;
    var thrust := laserPower * efficiency / 3e8;
    var timeSeconds := s.timeAvailable * 24.0 * 60.0 * 60.0;
    if s.asteroidMass == 0.0 then Err(ZeroDivision)
    else
      var deltaV := (thrust * timeSeconds) / s.asteroidMass;
      var requiredMissions := MaxInt(1, Trunc(s.asteroidMass / 1e9));
      Ok(DeflectionResult(deltaV, Readiness(s.timeAvailable, LaserDaysNeeded) * 0.70, requiredMissions))
  }

  /** The strategy names the dispatch knows. */
  const StrategyIds: seq<string> := ["kinetic-impactor", "gravity-tractor", "laser-ablation"]

  /** The body of the `try` in `calculate_deflection`: each known name is
      routed to its calculator, any other name raises the 400. */
  function Dispatch(s: DeflectionStrategy): (r: Result<DeflectionResult>)
    ensures s.kind !in StrategyIds ==> r == Err(Http(400, Text("Unknown deflection strategy")))
    ensures s.kind == StrategyIds[0] ==> r == KineticImpactor(s)
    ensures s.kind == StrategyIds[1] ==> r == GravityTractor(s)
    ensures s.kind == StrategyIds[2] ==> r == LaserAblation(s)
  {
    if s.kind == "kinetic-impactor" then KineticImpactor(s)
    else if s.kind == "gravity-tractor" then GravityTractor(s)
    else if s.kind == "laser-ablation" then LaserAblation(s)
    else Err(Http(400, Text("Unknown deflection strategy")))
  }

  /** `POST /calculate`: every exception, including the 400 raised for an
      unknown name inside the `try`, leaves as a 500 "Calculation error: ...". */
  function CalculateDeflection(s: DeflectionStrategy): (r: Result<DeflectionResult>)
    ensures r.Ok? <==> s.kind in StrategyIds && s.asteroidMass != 0.0
    ensures s.kind !in StrategyIds ==>
      r == Err(Http(500, Caused("Calculation error: ", Http(400, Text("Unknown deflection strategy")))))
    ensures s.kind in StrategyIds && s.asteroidMass == 0.0 ==>
      r == Err(Http(500, Caused("Calculation error: ", ZeroDivision)))
    ensures s.kind == "kinetic-impactor" && s.asteroidMass != 0.0 ==> r == KineticImpactor(s)
    ensures s.kind == "gravity-tractor" && s.asteroidMass != 0.0 ==> r == GravityTractor(s)
    ensures s.kind == "laser-ablation" && s.asteroidMass != 0.0 ==> r == LaserAblation(s)
  {
    ServerError("Calculation error: ", Dispatch(s))
  }

  /** No request is answered with a 400: the only failure status is 500. */
  lemma NeverBadRequest(s: DeflectionStrategy)
    ensures CalculateDeflection(s).Err? ==> CalculateDeflection(s).error.status == 500
  {
  }

  /** The multiplier each strategy's success probability saturates at. */
  function Ceiling(kind: string): real
  {
    if kind == "kinetic-impactor" then 0.85
    else if kind == "gravity-tractor" then 0.95
    else 0.70
  }

  function DaysNeeded(kind: string): real
  {
    if kind == "kinetic-impactor" then KineticDaysNeeded
    else if kind == "gravity-tractor" then GravityDaysNeeded
    else LaserDaysNeeded
  }

  /** For every strategy the success probability never exceeds its ceiling,
      equals it once the time available reaches the days needed, stays below
      it before then, is non-negative for a non-negative time and negative for
      a negative time. */
  lemma SuccessProbabilitySaturates(s: DeflectionStrategy)
    requires s.kind in StrategyIds && s.asteroidMass != 0.0
    ensures var p := CalculateDeflection(s).value.successProbability;
      && p <= Ceiling(s.kind)
      && (DaysNeeded(s.kind) <= s.timeAvailable ==> p == Ceiling(s.kind))
      && (s.timeAvailable < DaysNeeded(s.kind) ==> p < Ceiling(s.kind))
      && (0.0 <= s.timeAvailable ==> 0.0 <= p)
      && (s.timeAvailable < 0.0 ==> p < 0.0)
  {
  }

  /** Every answered request asks for at least one mission. */
  lemma AtLeastOneMission(s: DeflectionStrategy)
    requires CalculateDeflection(s).Ok?
    ensures CalculateDeflection(s).value.requiredMissions >= 1
  {
  }

  /** An entry of the strategy catalogue. */
  datatype StrategyInfo = StrategyInfo(
    id: string,
    name: string,
    description: string,
    effectiveness: real,
    minTimeRequiredDays: int,
    technologyReadiness: string,
    example: string)

  /** `list_strategies`. */
  const Strategies: seq<StrategyInfo> := [
    StrategyInfo("kinetic-impactor", "Kinetic Impactor",
      "Ram the asteroid with a spacecraft to change its velocity vector",
      0.8, 180, "proven", "NASA DART mission (2022)"),
    StrategyInfo("gravity-tractor", "Gravity Tractor",
      "Use spacecraft's gravitational pull to slowly alter orbit",
      0.9, 365, "theoretical", "None (proposed concept)"),
    StrategyInfo("laser-ablation", "Laser Ablation",
      "Vaporize surface material with laser to create thrust",
      0.7, 270, "experimental", "DE-STAR concept")
  ]

  /** The catalogue lists exactly the strategies the dispatch accepts, in the
      same order, and each entry's minimum time is the number of days at
      which that calculator's success probability reaches its ceiling. */
  lemma CatalogueMatchesCalculators()
    ensures |Strategies| == |StrategyIds|
    ensures forall i :: 0 <= i < |Strategies| ==> Strategies[i].id == StrategyIds[i]
    ensures forall i :: 0 <= i < |Strategies| ==>
      Strategies[i].minTimeRequiredDays as real == DaysNeeded(Strategies[i].id)
  {
  }

  /** Consequently, a request for a listed strategy that allows exactly the
      listed minimum time gets that strategy's full success probability. */
  lemma ListedMinimumSaturates(i: int, mass: real)
    requires 0 <= i < |Strategies| && mass != 0.0
    ensures var info := Strategies[i];
      var r := CalculateDeflection(DeflectionStrategy(info.id, info.minTimeRequiredDays as real, mass));
      r.Ok? && r.value.successProbability == Ceiling(info.id)
  {
    CatalogueMatchesCalculators();
    SuccessProbabilitySaturates(DeflectionStrategy(Strategies[i].id, Strategies[i].minTimeRequiredDays as real, mass));
  }
}
