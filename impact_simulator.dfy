/** The closed-form stages of the impact physics engine (`ImpactSimulator`):
    energy, crater, seismic, tsunami, atmospheric and casualty estimates.
    Every stage is a static formula; the transcendental calls go through a
    `Maths` value whose functions are uninterpreted. */
module ImpactSimulator {
  import opened Runtime

  /** 4.184e9 J: the energy of one TON of TNT (a kiloton is 4.184e12 J),
      so a megaton is TntJoules * 1e6 = 4.184e15 J. */
  const TntJoules: real := 4.184e9

  const JoulesPerMegaton: real := 4.184e15

  /** Fraction of impact energy that becomes seismic waves. */
  const SeismicEfficiency: real := 1e-5

  // ---------------------------------------------------------------- energy

  /** Fraction of the projectile's mass burnt up in the atmosphere: a step
      function of the diameter with strict upper thresholds 50, 100 and 500 m. */
  function AblationFraction(size: real): (f: real)
    ensures f in {0.9, 0.7, 0.3, 0.1}
  {
    if size < 50.0 then 0.9
    else if size < 100.0 then 0.7
    else if size < 500.0 then 0.3
    else 0.1
  }

  /** Larger bodies never lose a larger fraction. */
  lemma AblationNonIncreasing(a: real, b: real)
    requires a <= b
    ensures AblationFraction(b) <= AblationFraction(a)
  {
  }

  /** A diameter exactly on a threshold already belongs to the next band. */
  lemma AblationThresholds()
    ensures AblationFraction(50.0) == 0.7 && AblationFraction(100.0) == 0.3 && AblationFraction(500.0) == 0.1
    ensures forall s :: s < 50.0 ==> AblationFraction(s) == 0.9
    ensures forall s :: 50.0 <= s < 100.0 ==> AblationFraction(s) == 0.7
    ensures forall s :: 100.0 <= s < 500.0 ==> AblationFraction(s) == 0.3
    ensures forall s :: 500.0 <= s ==> AblationFraction(s) == 0.1
  {
  }

  /** Mass of a sphere of the given diameter (m) and density (kg/m³). */
  function SphereMass(m: Maths, size: real, density: real): real
  {
    var radius := size / 2.0;
    (4.0 / 3.0) * m.pi * (radius * radius * radius) * density
  }

  /** `calculate_impact_energy`: (energy in joules, energy in megatons of TNT).
      The entry angle defaults to 45 degrees. */
  function CalculateImpactEnergy(m: Maths, size: real, density: real, velocity: real, angle: real := 45.0): (r: (real, real))
    ensures r.1 * JoulesPerMegaton == r.0
  {
    var mass := SphereMass(m, size, density);
    var velocityMs := velocity * 1000.0;
    var ablationFraction := AblationFraction(size);
    var angleFactor := m.sin(Radians(m, angle));
    var effectiveMass := mass * (1.0 - ablationFraction);
    var joules := 0.5 * effectiveMass * (velocityMs * velocityMs) * angleFactor;
    (joules, joules / (TntJoules * 1e6))
  }

  /** Energy is non-negative for a non-negative size and density whenever the
      angle factor sin(angle) is non-negative. */
  lemma EnergyNonNegative(m: Maths, size: real, density: real, velocity: real, angle: real)
    requires 0.0 <= size && 0.0 <= density && 0.0 <= m.pi
    requires 0.0 <= m.sin(Radians(m, angle))
    ensures 0.0 <= CalculateImpactEnergy(m, size, density, velocity, angle).0
    ensures 0.0 <= CalculateImpactEnergy(m, size, density, velocity, angle).1
  {
    var radius := size / 2.0;
    ProductSign(radius, radius);
    ProductSign(radius * radius, radius);
    ProductSign(4.0 / 3.0 * m.pi, radius * radius * radius);
    var mass := SphereMass(m, size, density);
    ProductSign(4.0 / 3.0 * m.pi * (radius * radius * radius), density);
    var effectiveMass := mass * (1.0 - AblationFraction(size));
    ProductSign(mass, 1.0 - AblationFraction(size));
    var v := velocity * 1000.0;
    assert 0.0 <= v * v;
    ProductSign(0.5 * effectiveMass, v * v);
    ProductSign(0.5 * effectiveMass * (v * v), m.sin(Radians(m, angle)));
  }

  /** A sphere of non-negative size and density has non-negative mass. */
  lemma SphereMassNonNegative(m: Maths, size: real, density: real)
    requires 0.0 <= size && 0.0 <= density && 0.0 <= m.pi
    ensures 0.0 <= SphereMass(m, size, density)
  {
    var radius := size / 2.0;
    ProductSign(radius, radius);
    ProductSign(radius * radius, radius);
    ProductSign(4.0 / 3.0 * m.pi, radius * radius * radius);
    ProductSign(4.0 / 3.0 * m.pi * (radius * radius * radius), density);
  }

  /** Energy is the unattenuated kinetic energy scaled by the retained mass
      fraction and the angle factor; with sin(angle) <= 1 it never exceeds the
      retained-mass kinetic energy. */
  lemma EnergyAtMostRetainedKinetic(m: Maths, size: real, density: real, velocity: real, angle: real)
    requires 0.0 <= size && 0.0 <= density && 0.0 <= m.pi
    requires m.sin(Radians(m, angle)) <= 1.0
    ensures var v := velocity * 1000.0;
      CalculateImpactEnergy(m, size, density, velocity, angle).0
        <= 0.5 * SphereMass(m, size, density) * (1.0 - AblationFraction(size)) * (v * v)
  {
    SphereMassNonNegative(m, size, density);
    var mass := SphereMass(m, size, density);
    var retained := 1.0 - AblationFraction(size);
    var v := velocity * 1000.0;
    var sine := m.sin(Radians(m, angle));
    ProductSign(0.5 * mass, retained);
    SquareSign(v);
    ProductSign(0.5 * mass * retained, Square(v));
    var k := 0.5 * mass * retained * (v * v);
    assert CalculateImpactEnergy(m, size, density, velocity, angle).0 == Mul(k, sine);
    ProductSign(k, 1.0 - sine);
    assert Mul(k, 1.0 - sine) == k - Mul(k, sine);
  }

  // ---------------------------------------------------------------- crater

  /** Transient to final radius: a transient radius strictly above 2000 m is a
      complex crater and is widened by 1.25, anything else is kept. */
  function RimCollapse(transientRadius: real): (finalRadius: real)
    ensures 0.0 <= transientRadius ==> transientRadius <= finalRadius <= 1.25 * transientRadius
    ensures finalRadius == transientRadius <==> transientRadius <= 2000.0
  {
    if transientRadius > 2000.0 then transientRadius * 1.25 else transientRadius * 1.0
  }

  /** The regime switch is at 2000 m exclusive, and the final radius never
      shrinks when the transient radius grows. */
  lemma RimCollapseRegimes(a: real, b: real)
    requires 0.0 <= a <= b
    ensures RimCollapse(2000.0) == 2000.0
    ensures a > 2000.0 ==> RimCollapse(a) == 1.25 * a
    ensures RimCollapse(a) <= RimCollapse(b)
  {
  }

  /** Depth from diameter: one eighth above 4000 m, one fifth otherwise. */
  function CraterDepth(diameter: real): (depth: real)
    ensures 0.0 <= diameter ==> 0.0 <= depth <= diameter / 5.0
    ensures diameter > 4000.0 ==> depth * 8.0 == diameter
    ensures diameter <= 4000.0 ==> depth * 5.0 == diameter
  {
    diameter / (if diameter > 4000.0 then 8.0 else 5.0)
  }

  /** Depth is not monotone in diameter: it drops when the diameter crosses 4000 m. */
  lemma DepthDropsAcrossComplexThreshold()
    ensures CraterDepth(4000.0) > CraterDepth(4800.0)
  {
  }

  /** Target density (kg/m³): water or rock. */
  function TargetDensity(isWater: bool): real
  {
    if isWater then 1000.0 else 2700.0
  }

  /** The gravity-scaled size v²/(gL), with g the crater stage's own 9.81 m/s²
      and L the projectile diameter. */
  function GravityTerm(velocity: real, projectileRadius: real): real
    requires projectileRadius != 0.0
  {
    Square(velocity * 1000.0) / (9.81 * projectileRadius * 2.0)
  }

  /** The strength group Y/(ρt g L) for rock (Y = 1e7 Pa, ρt = 2700 kg/m³);
      water has no strength and the group is replaced by 1. */
  function StrengthTerm(isWater: bool, projectileRadius: real): real
    requires projectileRadius != 0.0
  {
    if isWater then 1.0 else 1e7 / (2700.0 * 9.81 * projectileRadius * 2.0)
  }

  /** The transient crater radius by pi-group scaling, once the divisions are
      known to be defined. */
  function TransientRadius(m: Maths, projectileRadius: real, density: real, velocity: real, isWater: bool): (r: Result<real>)
    requires projectileRadius != 0.0
    ensures r.Ok? <==> (0.0 <= density / TargetDensity(isWater) && 0.0 <= GravityTerm(velocity, projectileRadius)
                        && (isWater || 0.0 < StrengthTerm(isWater, projectileRadius)))
    ensures r.Err? ==> r.error == NotReal
  {
    StrengthTermSign(projectileRadius);
    var densityRatio := density / TargetDensity(isWater);
    var gravityTerm := GravityTerm(velocity, projectileRadius);
    var strengthTerm := StrengthTerm(isWater, projectileRadius);
    var densityFactor :- Pow(m, densityRatio, 0.44);
    var gravityFactor :- Pow(m, gravityTerm, 0.22);
    if isWater then
      Ok(projectileRadius * 8.0 * densityFactor * gravityFactor)
    else
      var strengthFactor :- Pow(m, strengthTerm, -0.11);
      Ok(projectileRadius * 1.6 * densityFactor * gravityFactor * strengthFactor)
  }

  /** `calculate_crater_size`: (diameter in m, depth in m). A zero size divides
      by zero; a negative density ratio, gravity term or strength term makes
      Python produce a complex radius, which the comparison with 2000 rejects. */
  function CalculateCraterSize(m: Maths, size: real, density: real, velocity: real, isWater: bool := false): (r: Result<(real, real)>)
    ensures r.Ok? ==> r.value.0 <= 50.0 * size
    ensures r.Ok? && 0.0 <= r.value.0 ==> 0.0 <= r.value.1 <= r.value.0 / 5.0
  {
    var projectileRadius := size / 2.0;
    if 9.81 * projectileRadius * 2.0 == 0.0 then Err(ZeroDivision)
    else
      var transientRadius :- TransientRadius(m, projectileRadius, density, velocity, isWater);
      var finalRadius := Min(RimCollapse(transientRadius), projectileRadius * 50.0);
      var diameter := finalRadius * 2.0;
      Ok((diameter, CraterDepth(diameter)))
  }

  /** v²/(gL) is zero for a motionless projectile and otherwise has the sign of the size. */
  lemma GravityTermSign(velocity: real, projectileRadius: real)
    requires projectileRadius != 0.0
    ensures velocity == 0.0 ==> GravityTerm(velocity, projectileRadius) == 0.0
    ensures velocity != 0.0 && projectileRadius < 0.0 ==> GravityTerm(velocity, projectileRadius) < 0.0
    ensures velocity != 0.0 && 0.0 < projectileRadius ==> 0.0 < GravityTerm(velocity, projectileRadius)
  {
    SquareSign(velocity * 1000.0);
    QuotientSign(Square(velocity * 1000.0), 9.81 * projectileRadius * 2.0);
  }

  /** Y/(ρt g L) for rock is never zero and has the sign of the size. */
  lemma StrengthTermSign(projectileRadius: real)
    requires projectileRadius != 0.0
    ensures projectileRadius < 0.0 ==> StrengthTerm(false, projectileRadius) < 0.0
    ensures 0.0 < projectileRadius ==> 0.0 < StrengthTerm(false, projectileRadius)
  {
    QuotientSign(1e7, 2700.0 * 9.81 * projectileRadius * 2.0);
  }

  /** Exactly which inputs raise: a zero size raises ZeroDivisionError; otherwise
      a negative density, or a negative size (except for a motionless water
      impact, whose gravity term is zero) gives a complex radius. */
  lemma CraterFailures(m: Maths, size: real, density: real, velocity: real, isWater: bool)
    ensures CalculateCraterSize(m, size, density, velocity, isWater) == Err(ZeroDivision) <==> size == 0.0
    ensures CalculateCraterSize(m, size, density, velocity, isWater) == Err(NotReal)
      <==> size != 0.0 && (density < 0.0 || (size < 0.0 && (velocity != 0.0 || !isWater)))
    ensures CalculateCraterSize(m, size, density, velocity, isWater).Ok?
      <==> size != 0.0 && 0.0 <= density && (0.0 < size || (velocity == 0.0 && isWater))
  {
    if size != 0.0 {
      QuotientSign(density, TargetDensity(isWater));
      GravityTermSign(velocity, size / 2.0);
      StrengthTermSign(size / 2.0);
    }
  }

  /** With a positive size and a non-negative density the crater always exists,
      and (given non-negative powers) it has a non-negative diameter of at most
      50 sizes and a depth of at most a fifth of the diameter. */
  lemma CraterWellFormed(m: Maths, size: real, density: real, velocity: real, isWater: bool)
    requires PowNonNegative(m)
    requires 0.0 < size && 0.0 <= density
    ensures CalculateCraterSize(m, size, density, velocity, isWater).Ok?
    ensures var (diameter, depth) := CalculateCraterSize(m, size, density, velocity, isWater).value;
      0.0 <= diameter <= 50.0 * size && 0.0 <= depth <= diameter / 5.0
  {
    CraterFailures(m, size, density, velocity, isWater);
    var pr := size / 2.0;
    var dr := m.pow(density / TargetDensity(isWater), 0.44);
    var gt := m.pow(GravityTerm(velocity, pr), 0.22);
    var st := m.pow(StrengthTerm(isWater, pr), -0.11);
    assert 0.0 <= dr && 0.0 <= gt && 0.0 <= st;
    ProductSign(pr * 8.0, dr);
    ProductSign(Mul(pr * 8.0, dr), gt);
    ProductSign(pr * 1.6, dr);
    ProductSign(Mul(pr * 1.6, dr), gt);
    ProductSign(Mul(Mul(pr * 1.6, dr), gt), st);
  }

  /** The gravity term grows with the speed of a body of positive size. */
  lemma GravityTermMonotone(v1: real, v2: real, projectileRadius: real)
    requires 0.0 <= v1 <= v2 && 0.0 < projectileRadius
    ensures 0.0 <= GravityTerm(v1, projectileRadius) <= GravityTerm(v2, projectileRadius)
  {
    var a, b := v1 * 1000.0, v2 * 1000.0;
    MulMonotone(a, a, b);
    MulMonotone(b, a, b);
    SquareSign(a);
    QuotientMonotone(Square(a), Square(b), 9.81 * projectileRadius * 2.0);
    QuotientSign(Square(a), 9.81 * projectileRadius * 2.0);
  }

  /** For a body of positive size with non-negative density and speed, the
      transient radius exists and is the product of its four factors (the
      strength factor is 1 on water). */
  lemma TransientRadiusFactors(m: Maths, projectileRadius: real, density: real, velocity: real, isWater: bool)
    requires 0.0 < projectileRadius && 0.0 <= density && 0.0 <= velocity
    ensures TransientRadius(m, projectileRadius, density, velocity, isWater).Ok?
    ensures TransientRadius(m, projectileRadius, density, velocity, isWater).value
      == Mul(Mul(Mul(projectileRadius * (if isWater then 8.0 else 1.6),
                     m.pow(density / TargetDensity(isWater), 0.44)),
                 m.pow(GravityTerm(velocity, projectileRadius), 0.22)),
             if isWater then 1.0 else m.pow(StrengthTerm(isWater, projectileRadius), -0.11))
  {
    QuotientSign(density, TargetDensity(isWater));
    GravityTermMonotone(velocity, velocity, projectileRadius);
    StrengthTermSign(projectileRadius);
  }

  /** For a body of positive size, a denser or faster projectile never gives a
      smaller transient radius, and the radius is never negative. */
  lemma TransientRadiusMonotone(m: Maths, projectileRadius: real, d1: real, d2: real, v1: real, v2: real, isWater: bool)
    requires PowNonNegative(m) && PowMonotone(m)
    requires 0.0 < projectileRadius && 0.0 <= d1 <= d2 && 0.0 <= v1 <= v2
    ensures TransientRadius(m, projectileRadius, d1, v1, isWater).Ok?
    ensures TransientRadius(m, projectileRadius, d2, v2, isWater).Ok?
    ensures 0.0 <= TransientRadius(m, projectileRadius, d1, v1, isWater).value
      <= TransientRadius(m, projectileRadius, d2, v2, isWater).value
  {
    TransientRadiusFactors(m, projectileRadius, d1, v1, isWater);
    TransientRadiusFactors(m, projectileRadius, d2, v2, isWater);
    var target := TargetDensity(isWater);
    QuotientMonotone(d1, d2, target);
    QuotientSign(d1, target);
    GravityTermMonotone(v1, v2, projectileRadius);
    var df1, df2 := m.pow(d1 / target, 0.44), m.pow(d2 / target, 0.44);
    var gf1, gf2 := m.pow(GravityTerm(v1, projectileRadius), 0.22), m.pow(GravityTerm(v2, projectileRadius), 0.22);
    var sf := if isWater then 1.0 else m.pow(StrengthTerm(isWater, projectileRadius), -0.11);
    assert 0.0 <= df1 <= df2 && 0.0 <= gf1 <= gf2 && 0.0 <= sf;
    ProductMonotone(projectileRadius * (if isWater then 8.0 else 1.6), df1, df2, gf1, gf2, sf);
  }

  /** A denser or faster projectile of the same positive size never leaves a
      smaller crater: the gravity term grows with the speed, the density
      ratio with the density, the rim-collapse factor only jumps upward, and
      the 50-radius cap keeps the order. */
  lemma CraterGrowsWithVelocityAndDensity(m: Maths, size: real, d1: real, d2: real, v1: real, v2: real, isWater: bool)
    requires PowNonNegative(m) && PowMonotone(m)
    requires 0.0 < size && 0.0 <= d1 <= d2 && 0.0 <= v1 <= v2
    ensures CalculateCraterSize(m, size, d1, v1, isWater).Ok?
    ensures CalculateCraterSize(m, size, d2, v2, isWater).Ok?
    ensures CalculateCraterSize(m, size, d1, v1, isWater).value.0
      <= CalculateCraterSize(m, size, d2, v2, isWater).value.0
  {
    var pr := size / 2.0;
    TransientRadiusMonotone(m, pr, d1, d2, v1, v2, isWater);
    var t1 := TransientRadius(m, pr, d1, v1, isWater).value;
    var t2 := TransientRadius(m, pr, d2, v2, isWater).value;
    RimCollapseRegimes(t1, t2);
  }

  // ---------------------------------------------------------------- seismic

  /** Felt radius (km) from magnitude: 10 below 3, then 50(m-2) below 5,
      100(m-3) below 7, and min(2000, 300(m-5)) from 7 on. */
  function FeltRadius(magnitude: real): (radius: real)
    ensures 10.0 <= radius <= 2000.0
  {
    if magnitude < 3.0 then 10.0
    else if magnitude < 5.0 then 50.0 * (magnitude - 2.0)
    else if magnitude < 7.0 then 100.0 * (magnitude - 3.0)
    else Min(2000.0, 300.0 * (magnitude - 5.0))
  }

  /** The piecewise radius never decreases as the magnitude grows, even across
      the regime boundaries 3, 5 and 7. */
  lemma FeltRadiusMonotone(a: real, b: real)
    requires a <= b
    ensures FeltRadius(a) <= FeltRadius(b)
  {
  }

  /** `calculate_seismic_effects`: (magnitude, felt radius in km). */
  function CalculateSeismicEffects(m: Maths, energyJoules: real): (r: (real, real))
    ensures 0.0 <= r.0 <= 10.0
    ensures energyJoules * SeismicEfficiency <= 0.0 ==> r.0 == 0.0
    ensures 10.0 <= r.1 <= 2000.0
    ensures r.1 == FeltRadius(r.0)
  {
    var seismicEnergy := energyJoules * SeismicEfficiency;
    var magnitude :=
      if seismicEnergy <= 0.0 then 0.0
      else Max(0.0, Min((m.log10(seismicEnergy) - 5.87) / 1.5, 10.0));
    (magnitude, FeltRadius(magnitude))
  }

  // ---------------------------------------------------------------- tsunami

  /** `calculate_tsunami_effects`: (wave height in m, affected radius in km).
      A negative energy makes the wave height complex and `min` raise. */
  function CalculateTsunamiEffects(m: Maths, energyMt: real): (r: Result<(real, real)>)
    ensures r.Ok? <==> 0.0 <= energyMt
    ensures r.Err? ==> r.error == NotReal
    ensures r.Ok? ==> r.value.0 <= 500.0 && r.value.1 <= 10000.0
  {
    var scaled :- Pow(m, energyMt / 1000.0, 0.25);
    var waveHeight := Min(scaled * 10.0, 500.0);
    // math.sqrt cannot meet a negative energy here: the wave height already raised.
    Ok((waveHeight, Min(m.sqrt(energyMt) * 15.0, 10000.0)))
  }

  /** Both tsunami figures lie in their clamped ranges [0, 500] and [0, 10000]. */
  lemma TsunamiWithinRange(m: Maths, energyMt: real)
    requires PowNonNegative(m) && SqrtNonNegative(m)
    requires 0.0 <= energyMt
    ensures var r := CalculateTsunamiEffects(m, energyMt);
      r.Ok? && 0.0 <= r.value.0 <= 500.0 && 0.0 <= r.value.1 <= 10000.0
  {
    assert 0.0 <= m.pow(energyMt / 1000.0, 0.25);
    assert 0.0 <= m.sqrt(energyMt);
  }

  // ---------------------------------------------------------------- atmosphere

  /** `calculate_atmospheric_effects`: (fireball, thermal radiation, overpressure)
      radii in km, three power laws of the energy in megatons. */
  function CalculateAtmosphericEffects(m: Maths, energyMt: real): (r: Result<(real, real, real)>)
    ensures r.Ok? <==> 0.0 <= energyMt
    ensures r.Err? ==> r.error == NotReal
  {
    // The three powers share their base, so they are real or complex together.
    var fireball :- Pow(m, energyMt, 0.4);
    Ok((fireball * 0.28, m.pow(energyMt, 0.41) * 2.2, m.pow(energyMt, 0.33) * 2.2))
  }

  lemma AtmosphericNonNegative(m: Maths, energyMt: real)
    requires PowNonNegative(m)
    requires 0.0 <= energyMt
    ensures var r := CalculateAtmosphericEffects(m, energyMt);
      r.Ok? && 0.0 <= r.value.0 && 0.0 <= r.value.1 && 0.0 <= r.value.2
  {
    assert 0.0 <= m.pow(energyMt, 0.4) && 0.0 <= m.pow(energyMt, 0.41) && 0.0 <= m.pow(energyMt, 0.33);
  }

  // ---------------------------------------------------------------- casualties

  /** `estimate_casualties`: (estimated casualties, affected population), in
      that order; the population density defaults to 50 per km². The estimate
      is half the affected population, truncated toward zero. */
  function EstimateCasualties(m: Maths, overpressureRadius: real, populationDensity: real := 50.0): (r: (int, int))
    ensures 0 <= r.1 ==> r.0 == r.1 / 2 && 0 <= r.0 <= r.1
    ensures r.1 < 0 ==> r.1 <= r.0 <= 0
  {
    var affectedArea := m.pi * (overpressureRadius * overpressureRadius);
    var affectedPopulation := Trunc(affectedArea * populationDensity);
    var estimated := Trunc(affectedPopulation as real * 0.5);
    (estimated, affectedPopulation)
  }

  /** With a non-negative density the affected population is non-negative and
      the estimate lies between zero and it. */
  lemma CasualtiesBounded(m: Maths, overpressureRadius: real, populationDensity: real)
    requires 0.0 <= m.pi && 0.0 <= populationDensity
    ensures var (estimated, affected) := EstimateCasualties(m, overpressureRadius, populationDensity);
      0 <= estimated <= affected
  {
    var r2 := overpressureRadius * overpressureRadius;
    assert 0.0 <= r2;
    ProductSign(m.pi, r2);
    ProductSign(m.pi * r2, populationDensity);
  }
}
