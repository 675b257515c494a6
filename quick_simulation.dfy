/** The stand-alone simplified simulator: a plain kinetic-energy estimate with
    no ablation and no entry angle, a crater and damage radius from power laws
    of the energy, a threshold classifier, and a fixed table of presets. It is
    independent of `ImpactSimulator`. */
module QuickSimulation {
  import opened Runtime
  import ImpactSimulator

  /** The request body: diameter (m), velocity (km/s), angle (degrees),
      density (kg/m³, 2600 unless given) and a target that defaults to New York. */
  datatype SimulationRequest = SimulationRequest(
    diameter: real,
    velocity: real,
    angle: real,
    density: real := 2600.0,
    targetLocation: map<string, real> := map["lat" := 40.7128, "lng" := -74.0060])

  datatype QuickResults = QuickResults(
    massKg: real,
    kineticEnergyJoules: real,
    tntEquivalentTons: real,
    energyMegatons: real,
    craterDiameterM: real,
    damageRadiusKm: real,
    estimatedCasualties: int,
    impactClassification: string)

  /** The response: the request echoed back, the results and three fixed warnings. */
  datatype QuickResponse = QuickResponse(input: SimulationRequest, results: QuickResults, warnings: seq<string>)

  const Warnings: seq<string> := [
    "This is a simplified simulation for educational purposes",
    "Real impact effects depend on many additional factors",
    "Consult scientific literature for accurate assessments"
  ]

  // ---------------------------------------------------------------- classifier

  /** The five severity labels, least severe first. */
  const SeverityLabels: seq<string> := [
    "Local damage",
    "Regional damage",
    "Continental damage",
    "Global climate effects",
    "Mass extinction event"
  ]

  /** The energies (megatons) at which the next label starts. */
  const Thresholds: seq<real> := [1.0, 100.0, 10000.0, 100000000.0]

  /** How many of the thresholds an energy has reached. */
  function Reached(thresholds: seq<real>, energyMegatons: real): (n: nat)
    ensures n <= |thresholds|
  {
    if |thresholds| == 0 then 0
    else (if thresholds[0] <= energyMegatons then 1 else 0) + Reached(thresholds[1..], energyMegatons)
  }

  /** Reaching is monotone in the energy. */
  lemma {:induction false} ReachedMonotone(thresholds: seq<real>, a: real, b: real)
    requires a <= b
    ensures Reached(thresholds, a) <= Reached(thresholds, b)
  {
    if |thresholds| != 0 {
      ReachedMonotone(thresholds[1..], a, b);
    }
  }

  /** `classify_impact`: the first label whose threshold the energy is below,
      or the last label once it reaches 1e8 megatons. */
  function ClassifyImpact(energyMegatons: real): (severity: string)
    ensures severity in SeverityLabels
  {
    if energyMegatons < 1.0 then "Local damage"
    else if energyMegatons < 100.0 then "Regional damage"
    else if energyMegatons < 10000.0 then "Continental damage"
    else if energyMegatons < 100000000.0 then "Global climate effects"
    else "Mass extinction event"
  }

  /** The label is the one indexed by the number of thresholds reached. */
  lemma ClassifyCountsThresholds(energyMegatons: real)
    ensures ClassifyImpact(energyMegatons) == SeverityLabels[Reached(Thresholds, energyMegatons)]
  {
    var e := energyMegatons;
    var t := Thresholds;
    assert t[1..] == [100.0, 10000.0, 100000000.0];
    assert t[1..][1..] == [10000.0, 100000000.0];
    assert t[1..][1..][1..] == [100000000.0];
    assert t[1..][1..][1..][1..] == [];
    assert Reached(t[1..][1..][1..], e) == if 100000000.0 <= e then 1 else 0;
    assert Reached(t[1..][1..], e) == (if 10000.0 <= e then 1 else 0) + Reached(t[1..][1..][1..], e);
    assert Reached(t[1..], e) == (if 100.0 <= e then 1 else 0) + Reached(t[1..][1..], e);
    assert Reached(t, e) == (if 1.0 <= e then 1 else 0) + Reached(t[1..], e);
  }

  /** A larger energy never gets a less severe label. */
  lemma ClassifyMonotone(a: real, b: real)
    requires a <= b
    ensures exists i, j :: (0 <= i <= j < |SeverityLabels|
      && ClassifyImpact(a) == SeverityLabels[i] && ClassifyImpact(b) == SeverityLabels[j])
  {
    ClassifyCountsThresholds(a);
    ClassifyCountsThresholds(b);
    ReachedMonotone(Thresholds, a, b);
    var i, j := Reached(Thresholds, a), Reached(Thresholds, b);
    assert ClassifyImpact(a) == SeverityLabels[i] && ClassifyImpact(b) == SeverityLabels[j];
  }

  /** The thresholds are strict upper bounds: an energy exactly on one already
      gets the next label. */
  lemma ClassifyBoundaries()
    ensures ClassifyImpact(1.0) == "Regional damage"
    ensures ClassifyImpact(100.0) == "Continental damage"
    ensures ClassifyImpact(10000.0) == "Global climate effects"
    ensures ClassifyImpact(100000000.0) == "Mass extinction event"
  {
  }

  // ---------------------------------------------------------------- simulation

  /** Mass of the sphere, kg. */
  function Mass(m: Maths, request: SimulationRequest): real
  {
    (4.0 / 3.0) * m.pi * Cube(request.diameter / 2.0) * request.density
  }

  /** Kinetic energy 0.5·m·v² in joules, with v in m/s: no ablation, no angle. */
  function KineticEnergy(m: Maths, request: SimulationRequest): real
  {
    0.5 * Mass(m, request) * Square(request.velocity * 1000.0)
  }

  /** Energy in megatons: joules per ton of TNT, then tons per megaton. */
  function EnergyMegatons(m: Maths, request: SimulationRequest): real
  {
    KineticEnergy(m, request) / 4.184e9 / 1e6
  }

  /** The body of the `try` in `simulate_impact`. A negative energy makes the
      crater's quarter power complex without raising; `math.sqrt` then raises. */
  function Simulate(m: Maths, request: SimulationRequest): Result<QuickResponse>
  {
    var mass := Mass(m, request);
    var kineticEnergy := KineticEnergy(m, request);
    var tntEquivalent := kineticEnergy / 4.184e9;
    var energyMegatons := tntEquivalent / 1e6;
    var craterDiameter := 1.8 * m.pow(energyMegatons, 0.25) * 1000.0;
    var root :- Sqrt(m, energyMegatons);
    var damageRadius := root * 5.0;
    var populationAffected := Trunc(Square(damageRadius) * m.pi * 1000.0);
    Ok(QuickResponse(
      request,
      QuickResults(mass, kineticEnergy, tntEquivalent, energyMegatons, craterDiameter,
                   damageRadius, populationAffected, ClassifyImpact(energyMegatons)),
      Warnings))
  }

  /** `POST /impact`: any exception becomes a 500 whose detail is its message. */
  function SimulateImpact(m: Maths, request: SimulationRequest): (r: Result<QuickResponse>)
    ensures r.Ok? <==> 0.0 <= EnergyMegatons(m, request)
    ensures r.Err? ==> r.error == Http(500, Caused("", MathDomain))
    ensures r.Ok? ==> r.value.input == request && r.value.warnings == Warnings
    ensures r.Ok? ==> r.value.results.energyMegatons == EnergyMegatons(m, request)
    ensures r.Ok? ==> r.value.results.impactClassification == ClassifyImpact(EnergyMegatons(m, request))
  {
    ServerError("", Simulate(m, request))
  }

  /** The energy bookkeeping: megatons times 4.184e15 gives back the joules,
      and the TNT tonnage is a million times the megatons. */
  lemma EnergyUnits(m: Maths, request: SimulationRequest)
    requires SimulateImpact(m, request).Ok?
    ensures var res := SimulateImpact(m, request).value.results;
      res.energyMegatons * 4.184e15 == res.kineticEnergyJoules
      && res.tntEquivalentTons == res.energyMegatons * 1e6
      && res.kineticEnergyJoules == 0.5 * res.massKg * Square(request.velocity * 1000.0)
  {
  }

  /** For a non-negative diameter and density the energy is non-negative, so
      the simulation always answers, and the casualty estimate is
      non-negative. */
  lemma SimulateImpactSucceeds(m: Maths, request: SimulationRequest)
    requires PiBetween(m) && SqrtNonNegative(m)
    requires 0.0 <= request.diameter && 0.0 <= request.density
    ensures SimulateImpact(m, request).Ok?
    ensures 0.0 <= SimulateImpact(m, request).value.results.kineticEnergyJoules
    ensures 0 <= SimulateImpact(m, request).value.results.estimatedCasualties
  {
    CubeSign(request.diameter / 2.0);
    ProductSign((4.0 / 3.0) * m.pi, Cube(request.diameter / 2.0));
    ProductSign(Mul((4.0 / 3.0) * m.pi, Cube(request.diameter / 2.0)), request.density);
    SquareSign(request.velocity * 1000.0);
    ProductSign(0.5 * Mass(m, request), Square(request.velocity * 1000.0));
    var mt := EnergyMegatons(m, request);
    SquareSign(m.sqrt(mt) * 5.0);
    ProductSign(Square(m.sqrt(mt) * 5.0), m.pi);
  }

  /** A negative diameter with a positive density and a moving body gives a
      negative energy, and the request fails with the square root's domain
      error. */
  lemma NegativeSizeFails(m: Maths, request: SimulationRequest)
    requires PiBetween(m)
    requires request.diameter < 0.0 && 0.0 < request.density && request.velocity != 0.0
    ensures SimulateImpact(m, request) == Err(Http(500, Caused("", MathDomain)))
  {
    CubeSign(request.diameter / 2.0);
    ProductSign((4.0 / 3.0) * m.pi, Cube(request.diameter / 2.0));
    assert Mass(m, request) < 0.0 by {
      ProductSign(-Mul((4.0 / 3.0) * m.pi, Cube(request.diameter / 2.0)), request.density);
    }
    SquareSign(request.velocity * 1000.0);
    ProductSign(-0.5 * Mass(m, request), Square(request.velocity * 1000.0));
  }

  /** The entry angle is echoed but never used: changing it changes nothing
      in the results. */
  lemma SimulationIgnoresAngle(m: Maths, request: SimulationRequest, angle: real)
    ensures SimulateImpact(m, request.(angle := angle)).Ok? == SimulateImpact(m, request).Ok?
    ensures SimulateImpact(m, request).Ok? ==>
      SimulateImpact(m, request.(angle := angle)).value.results == SimulateImpact(m, request).value.results
      && SimulateImpact(m, request.(angle := angle)).value.input.angle == angle
  {
    var turned := request.(angle := angle);
    assert Mass(m, turned) == Mass(m, request);
    assert KineticEnergy(m, turned) == KineticEnergy(m, request);
    assert EnergyMegatons(m, turned) == EnergyMegatons(m, request);
  }

  /** The two engines agree up to the full engine's corrections: for the same
      diameter, density and velocity, the full engine's energy is this
      engine's kinetic energy times the retained mass fraction and the angle
      factor. */
  lemma EnginesDifferByAttenuation(m: Maths, request: SimulationRequest, angle: real)
    ensures ImpactSimulator.CalculateImpactEnergy(m, request.diameter, request.density, request.velocity, angle).0
      == KineticEnergy(m, request)
         * (1.0 - ImpactSimulator.AblationFraction(request.diameter))
         * m.sin(Radians(m, angle))
  {
    assert ImpactSimulator.SphereMass(m, request.diameter, request.density) == Mass(m, request);
  }

  // ---------------------------------------------------------------- presets

  /** A canned scenario: name, diameter (m), velocity (km/s), angle (degrees). */
  datatype Preset = Preset(name: string, diameter: real, velocity: real, angle: real, description: string)

  /** `get_simulation_presets`. */
  const Presets: seq<Preset> := [
    Preset("Chelyabinsk (2013)", 20.0, 19.16, 18.0, "Similar to the 2013 Russian fireball"),
    Preset("Tunguska (1908)", 50.0, 15.0, 45.0, "Similar to the 1908 Siberian event"),
    Preset("City Killer", 100.0, 20.0, 45.0, "Hypothetical urban impact scenario"),
    Preset("Regional Devastator", 500.0, 25.0, 45.0, "Major regional impact"),
    Preset("Chicxulub-class", 10000.0, 20.0, 60.0, "Similar to the dinosaur extinction event")
  ]

  /** The request a client sends for a preset (the density is left at its default). */
  function PresetRequest(p: Preset): (r: SimulationRequest)
    ensures r.density == 2600.0
  {
    SimulationRequest(p.diameter, p.velocity, p.angle)
  }

  /** The preset table has five entries with distinct names. */
  lemma PresetsTable()
    ensures |Presets| == 5
    ensures forall i, j :: 0 <= i < j < |Presets| ==> Presets[i].name != Presets[j].name
    ensures Presets[0].diameter == 20.0 && Presets[4].diameter == 10000.0
  {
  }

  /** What the simplified simulator says about the smallest and the largest
      preset: the Chelyabinsk-like body (about 0.48 Mt) does local damage, and
      the Chicxulub-class body (about 6.5e7 Mt) stays below the 1e8 Mt
      extinction threshold. */
  lemma PresetClassifications(m: Maths)
    requires PiBetween(m)
    ensures 0.4 < EnergyMegatons(m, PresetRequest(Presets[0])) < 1.0
    ensures 6.0e7 < EnergyMegatons(m, PresetRequest(Presets[4])) < 1e8
    ensures ClassifyImpact(EnergyMegatons(m, PresetRequest(Presets[0]))) == "Local damage"
    ensures ClassifyImpact(EnergyMegatons(m, PresetRequest(Presets[4]))) == "Global climate effects"
  {
  }
}
