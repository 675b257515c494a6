# Meteor impact and deflection calculators, modelled in Dafny

This project models the computational core of the meteor impact simulator:

- **`ImpactSimulator`** (`impact_simulator.dfy`) is the physics engine. Its stages are:
  - impact energy, with the ablation step function and the entry-angle factor;
  - crater size, by pi-group scaling with the simple/complex regime switch, the 50× clamp and the depth ratio;
  - seismic magnitude and felt radius;
  - tsunami height and radius;
  - atmospheric radii;
  - casualties.
- **`SimulationRouter`** (`simulation_router.dfy`) is the `/simulate` handler that chains those stages, and the `/energy-estimate` handler.
- **`QuickSimulation`** (`quick_simulation.dfy`) is the stand-alone simplified simulator. It has its own energy formula with no ablation and no angle, the five-label severity classifier, and the preset table. It is kept separate from the engine. A lemma relates the two energy formulas.
- **`Deflection`** (`deflection.dfy`) covers:
  - the kinetic-impactor, gravity-tractor and laser-ablation calculators;
  - the dispatch on the strategy name and its error path;
  - the strategy catalogue.
- **`Models`** (`models.dfy`) holds the request and response records, and the validity predicates their field constraints define.
- **`NeoFeed`** (`neo_feed.dfy`) covers the near-Earth-object endpoints:
  - the week's feed is flattened by a loop (a method with invariants);
  - it is sorted largest first by a stable sort (missing diameters count as 0);
  - it is counted and cut to 50;
  - the hazardous-object listing is passed through;
  - upstream failures are mapped to HTTP statuses.
- **`Runtime`** (`runtime.dfy`) holds the Python behaviour the code relies on:
  - exceptions as a `Failure` value inside a `Result`;
  - `int()` truncation toward zero;
  - `min`/`max`, which return their first argument on ties;
  - `try/except` → HTTP 500;
  - the transcendental functions of `math` and fractional `**`.

Floats are Dafny `real`. The transcendental functions (`pi`, `x ** e` for a fractional `e`, `log10`, `sin`, `sqrt`) are fields of a `Maths` value and stay uninterpreted. Lemmas that need facts about them take them as ghost predicates:

- powers and square roots of non-negative numbers are non-negative;
- a positive power of a larger non-negative base is at least as large (used only for the crater's monotonicity);
- the sine of an angle in [0°, 90°] lies in [0, 1];
- 3.14 < π < 3.15.

Python raises on several inputs, and each of these becomes an explicit error value:

- a division by zero;
- the square root of a negative number;
- a fractional power of a negative number, which gives a complex number that a later comparison, `min` or `int()` rejects;
- a call with the wrong number of arguments.

The HTTP handlers' `except` clauses become `ServerError`, or an explicit mapping where the handler has several clauses.

A few facts about the code that the model keeps:

- **Entry angle:** 0° is a valid entry angle (`ge=0`).
- **Casualties:** the counts are truncated with `int()`.
- **Chicxulub-class preset:** it comes to about 6.5×10⁷ Mt and classifies as "Global climate effects".
- **Full simulation:** it never succeeds as written (see Findings).

## Model

| member | source | states |
|---|---|---|
| `Runtime.ServerError` | backend/routers/simulation.py:84-85 | A successful result passes through unchanged. Any exception becomes an HTTP 500 whose detail is the fixed prefix followed by the caught error. |
| `Runtime.Trunc` | backend/simulation.py:219 | `int()` of a float truncates toward zero: for x ≥ 0 the result is in (x−1, x] and not negative; for x < 0 it is in [x, x+1) and not positive. |
| `Runtime.Min` | backend/simulation.py:111 | `min(a, b)` is at most both arguments and is one of them. |
| `Runtime.Max` | backend/simulation.py:145 | `max(a, b)` is at least both arguments and is one of them. |
| `Runtime.MaxInt` | backend/routers/deflection.py:47 | Integer `max(a, b)` is at least both arguments and is one of them. |
| `Runtime.Radians` | backend/simulation.py:49 | `math.radians`: 0° is 0, 180° is π, and a non-negative angle gives a non-negative value when π ≥ 0. |
| `Runtime.Pow` | backend/simulation.py:98-101 | A fractional power fails exactly for a negative base (TypeError once the complex value is compared) or a zero base with a negative exponent (ZeroDivisionError). Under the non-negativity axiom, a result is ≥ 0. |
| `Runtime.Sqrt` | api/simulation.py:38 | `math.sqrt` raises ValueError exactly for a negative argument. Under the non-negativity axiom, a result is ≥ 0. |
| `Runtime.MulMonotone` | backend/simulation.py:101 | Proof helper (arithmetic, not a model of the source): multiplying by a non-negative factor keeps order, on either side. This is the step behind the crater's monotonicity. |
| `Runtime.ProductMonotone` | backend/simulation.py:98-101 | Proof helper (arithmetic, not a model of the source): a product of non-negative factors does not decrease when two of them grow. |
| `ImpactSimulator.AblationFraction` | backend/simulation.py:38-46 | The burnt-up fraction is always one of 0.9, 0.7, 0.3 or 0.1. |
| `ImpactSimulator.AblationNonIncreasing` | backend/simulation.py:38-46 | A larger body never loses a larger fraction. |
| `ImpactSimulator.AblationThresholds` | backend/simulation.py:39-46 | The thresholds are strict, so sizes of exactly 50, 100 and 500 m fall in the next band. The fraction is 0.9 below 50 m, 0.7 on [50, 100), 0.3 on [100, 500) and 0.1 from 500 m on. |
| `ImpactSimulator.SphereMassNonNegative` | backend/simulation.py:33-35 | A sphere of non-negative size and density has non-negative mass. |
| `ImpactSimulator.CalculateImpactEnergy` | backend/simulation.py:19-59 | Returns (joules, megatons). Megatons × 4.184e15 gives back the joules exactly, because the constant 4.184e9 is joules per ton. |
| `ImpactSimulator.EnergyNonNegative` | backend/simulation.py:33-54 | The energy in joules and in megatons is ≥ 0 whenever size and density are ≥ 0 and sin(angle) ≥ 0. |
| `ImpactSimulator.EnergyAtMostRetainedKinetic` | backend/simulation.py:49-54 | When sin(angle) ≤ 1, the energy never exceeds ½·mass·(1 − ablation)·(1000·v)². |
| `ImpactSimulator.RimCollapse` | backend/simulation.py:104-107 | For a non-negative transient radius t, the final radius lies in [t, 1.25·t]. It equals t exactly when t ≤ 2000. |
| `ImpactSimulator.RimCollapseRegimes` | backend/simulation.py:104-107 | At exactly 2000 m the factor is 1.0. Above 2000 m the radius is scaled by 1.25. The final radius never shrinks as the transient radius grows. |
| `ImpactSimulator.CraterDepth` | backend/simulation.py:114 | Depth is diameter/8 above 4000 m and diameter/5 otherwise. So 0 ≤ depth ≤ diameter/5 for any diameter ≥ 0. |
| `ImpactSimulator.DepthDropsAcrossComplexThreshold` | backend/simulation.py:114 | Depth is not monotone: a 4000 m crater is deeper than a 4800 m one. |
| `ImpactSimulator.CalculateCraterSize` | backend/simulation.py:62-116 | On any input it returns, the diameter is at most 50 × size. A non-negative diameter has 0 ≤ depth ≤ diameter/5. |
| `ImpactSimulator.GravityTermSign` | backend/simulation.py:92 | v²/(gL) is 0 for a motionless body. Otherwise it has the sign of the projectile radius. |
| `ImpactSimulator.StrengthTermSign` | backend/simulation.py:93 | The rock strength group 1e7/(2700·g·L) has the sign of the projectile radius. |
| `ImpactSimulator.TransientRadius` | backend/simulation.py:86-101 | The transient radius is real iff the density ratio and the gravity term are ≥ 0 and, on rock, the strength term is > 0. Every failure is the complex-number TypeError. |
| `ImpactSimulator.GravityTermMonotone` | backend/simulation.py:92 | For a body of positive size, v²/(gL) is ≥ 0 and grows with the speed. |
| `ImpactSimulator.TransientRadiusFactors` | backend/simulation.py:96-101 | For positive size and non-negative density and speed, the transient radius exists and is the product of its scaling factors, with the strength factor 1 on water. |
| `ImpactSimulator.TransientRadiusMonotone` | backend/simulation.py:86-101 | For positive size, a denser or faster projectile never gives a smaller transient radius, and the radius is ≥ 0. |
| `ImpactSimulator.CraterGrowsWithVelocityAndDensity` | backend/simulation.py:86-113 | For a fixed positive size, raising the density or the velocity (from ≥ 0) never gives a smaller crater diameter. This holds across the rim-collapse jump at 2000 m and under the 50-radius cap. |
| `ImpactSimulator.CraterFailures` | backend/simulation.py:77-101 | Exactly these inputs raise: a zero size raises ZeroDivisionError; a negative density raises TypeError (complex radius); so does a negative size, unless it is a motionless water impact. Every other input returns. |
| `ImpactSimulator.CraterWellFormed` | backend/simulation.py:62-116 | A positive size and a non-negative density always give a crater with 0 ≤ diameter ≤ 50·size and 0 ≤ depth ≤ diameter/5. |
| `ImpactSimulator.FeltRadius` | backend/simulation.py:149-159 | The piecewise felt radius always lies in [10, 2000] km. |
| `ImpactSimulator.FeltRadiusMonotone` | backend/simulation.py:149-159 | The felt radius never decreases as the magnitude grows, across the 3/5/7 boundaries too. |
| `ImpactSimulator.CalculateSeismicEffects` | backend/simulation.py:119-161 | The magnitude lies in [0, 10] and is 0 when joules·1e-5 ≤ 0. The radius is the piecewise radius of that magnitude, so it lies in [10, 2000]. |
| `ImpactSimulator.CalculateTsunamiEffects` | backend/simulation.py:164-182 | It returns iff the energy is ≥ 0; a negative energy gives a TypeError. The wave height is ≤ 500 and the radius ≤ 10000. |
| `ImpactSimulator.TsunamiWithinRange` | backend/simulation.py:175-180 | For energy ≥ 0, the height lies in [0, 500] and the radius in [0, 10000]. |
| `ImpactSimulator.CalculateAtmosphericEffects` | backend/simulation.py:185-204 | The three radii are real iff the energy is ≥ 0. |
| `ImpactSimulator.AtmosphericNonNegative` | backend/simulation.py:196-202 | For energy ≥ 0, the fireball, thermal and overpressure radii are all ≥ 0. |
| `ImpactSimulator.EstimateCasualties` | backend/simulation.py:207-228 | Returns (estimated, affected) in that order, with estimated = affected div 2. For affected ≥ 0 this gives 0 ≤ estimated ≤ affected. |
| `ImpactSimulator.CasualtiesBounded` | backend/simulation.py:218-228 | With a population density ≥ 0: 0 ≤ estimated ≤ affected. |
| `Models.ValidImpactLocation` | backend/models.py:4-6 | A location is valid iff −90 ≤ lat ≤ 90 and −180 ≤ lng ≤ 180, both ends inclusive. |
| `Models.ValidImpactParameters` | backend/models.py:8-14 | Parameters are valid iff size, density and velocity are > 0, 0 ≤ angle ≤ 90, and the location is valid. The water flag is unconstrained. |
| `Models.ParameterBoundaries` | backend/models.py:4-12 | Angles 0 and 90 are both valid. A zero size, density or velocity is invalid. A latitude outside [−90, 90] or a longitude outside [−180, 180] is invalid. |
| `Models.WaterFlagDefault` | backend/models.py:14 | A request that omits `is_water_impact` is a land impact (False). |
| `Models.OptionalStagesDefault` | backend/models.py:41-47 | Tsunami and casualties default to absent; the four required stages are stored as given. |
| `SimulationRouter.CallCraterSize` | backend/routers/simulation.py:29-32 | Binds positional arguments as Python does for `calculate_crater_size(size, density, velocity, is_water=False)`. Fewer than three is a TypeError naming the missing parameters; more than four is a TypeError. Three or four floats run the stage, with the fourth argument's truthiness as the water flag. |
| `SimulationRouter.SimulateImpactAsWritten` | backend/routers/simulation.py:7-85 | The handler as written: every failure is a 500. |
| `SimulationRouter.SimulateImpactAsWrittenAlwaysFails` | backend/routers/simulation.py:29-32 | For every request the handler answers 500 "Simulation error: " with the missing-`velocity` TypeError. |
| `SimulationRouter.SimulateImpact` | backend/routers/simulation.py:7-85 | The handler with the crater call corrected: every failure is a 500 that carries the caught error. |
| `SimulationRouter.SimulationIgnoresAngle` | backend/routers/simulation.py:22-26 | The request's angle reaches no stage. Two requests that differ only in angle get identical answers, both as written and corrected. |
| `SimulationRouter.SimulateImpactSucceeds` | backend/routers/simulation.py:20-82 | With the call corrected, every valid request succeeds, and each field is its stage's output on the request. The energy is the 45° energy, and ≥ 0. The crater is `calculate_crater_size(size, density, velocity, is_water)`: at most 50·size wide and at most a fifth as deep. The seismic pair is the seismic stage on that energy, and in range. The tsunami is present iff the water flag is true, and is then the tsunami stage's answer, in range. The atmospheric radii are that stage's answer. The casualties are the casualty stage on the overpressure radius, in the stage's (estimated, affected) order, with 0 ≤ estimated ≤ affected. |
| `SimulationRouter.EstimateEnergy` | backend/routers/simulation.py:87-102 | Joules and megatons are the stage's 45° values, unchanged; megatons × 4.184e15 = joules; the Hiroshima equivalent × 0.015 = megatons. |
| `QuickSimulation.ClassifyImpact` | api/simulation.py:71-82 | Total: it always returns one of the five severity labels. |
| `QuickSimulation.ClassifyCountsThresholds` | api/simulation.py:71-82 | The label is the one indexed by how many of the thresholds 1, 100, 1e4 and 1e8 the energy has reached. |
| `QuickSimulation.ClassifyMonotone` | api/simulation.py:71-82 | A larger energy never gets an earlier (less severe) label. |
| `QuickSimulation.ClassifyBoundaries` | api/simulation.py:73-82 | Energies exactly on the thresholds get the next label: 1 → "Regional damage" … 1e8 → "Mass extinction event". |
| `QuickSimulation.SimulateImpact` | api/simulation.py:20-69 | It answers iff the energy in megatons is ≥ 0. Otherwise it is a 500 carrying the square root's domain error. The answer echoes the request and the three warnings, and carries the energy and its classification. |
| `QuickSimulation.EnergyUnits` | api/simulation.py:25-34 | Kinetic energy is ½·mass·(1000·v)²; tons = megatons × 1e6; megatons × 4.184e15 = joules. |
| `QuickSimulation.SimulateImpactSucceeds` | api/simulation.py:25-41 | A non-negative diameter and density always answer, with a non-negative energy and a non-negative casualty estimate. |
| `QuickSimulation.NegativeSizeFails` | api/simulation.py:38 | A negative diameter with a positive density and a moving body ends in the 500 with the square root's domain error. |
| `QuickSimulation.SimulationIgnoresAngle` | api/simulation.py:25-59 | Changing the angle changes nothing in the results; it is only echoed. |
| `QuickSimulation.EnginesDifferByAttenuation` | api/simulation.py:25-27 | The full engine's energy is this engine's kinetic energy times (1 − ablation) and sin(angle). |
| `QuickSimulation.Presets` | api/simulation.py:84-125 | The five canned scenarios, in the listed order, with their names, diameters (m), velocities (km/s), angles (°) and descriptions. |
| `QuickSimulation.PresetRequest` | api/simulation.py:13-18 | A preset sent as a request gets the default density 2600. |
| `QuickSimulation.PresetsTable` | api/simulation.py:84-125 | There are exactly five presets with distinct names, from the 20 m body to the 10 km body. |
| `QuickSimulation.PresetClassifications` | api/simulation.py:89-123 | The Chelyabinsk preset comes to 0.4–1 Mt, "Local damage". The Chicxulub-class preset comes to 6e7–1e8 Mt, "Global climate effects". |
| `Deflection.Readiness` | backend/routers/deflection.py:44 | min(t/days, 1) is ≤ 1: = 1 once t ≥ days, < 1 before that, ≥ 0 for t ≥ 0, and < 0 for t < 0. |
| `Deflection.KineticImpactor` | backend/routers/deflection.py:27-53 | It fails with ZeroDivisionError iff the mass is 0. Otherwise: Δv × mass = 2e7; success = readiness(t, 180) × 0.85; missions = max(1, int(mass/1e5)). |
| `Deflection.GravityTractor` | backend/routers/deflection.py:55-85 | It fails with ZeroDivisionError iff the mass is 0. Otherwise: success = readiness(t, 365) × 0.95; missions = 1. |
| `Deflection.GravityTractorMassIndependent` | backend/routers/deflection.py:67-75 | For any non-zero mass, Δv = G·20000/100² × 86400·t, whatever the mass. |
| `Deflection.LaserAblation` | backend/routers/deflection.py:87-115 | It fails with ZeroDivisionError iff the mass is 0. Otherwise: Δv × mass = (1e5·0.1/3e8)·86400·t; success = readiness(t, 270) × 0.70; missions = max(1, int(mass/1e9)). |
| `Deflection.Dispatch` | backend/routers/deflection.py:13-20 | "kinetic-impactor", "gravity-tractor" and "laser-ablation" are routed to their calculators. Any other name raises the 400 "Unknown deflection strategy". |
| `Deflection.CalculateDeflection` | backend/routers/deflection.py:7-25 | It answers iff the name is one of the three and the mass is non-zero. "kinetic-impactor", "gravity-tractor" and "laser-ablation" each get exactly that calculator's result. An unknown name gives 500 "Calculation error: " wrapping the 400. A zero mass gives 500 wrapping the ZeroDivisionError. |
| `Deflection.NeverBadRequest` | backend/routers/deflection.py:19-25 | No request ends in a 400: every failure is a 500. |
| `Deflection.SuccessProbabilitySaturates` | backend/routers/deflection.py:42-107 | For every strategy, success is ≤ its ceiling, equals it once t ≥ days needed, and is below it before then. It is ≥ 0 for t ≥ 0 and < 0 for t < 0. |
| `Deflection.AtLeastOneMission` | backend/routers/deflection.py:46-109 | Every answer asks for at least one mission. |
| `Deflection.Strategies` | backend/routers/deflection.py:117-152 | The three catalogue entries in the listed order, with id, name, description, effectiveness, minimum days, readiness and example. |
| `Deflection.CatalogueMatchesCalculators` | backend/routers/deflection.py:117-152 | The catalogue lists exactly the dispatch's three names in order. Each minimum time (180, 365, 270) is that calculator's days needed. |
| `Deflection.ListedMinimumSaturates` | backend/routers/deflection.py:117-152 | A request with exactly a listed strategy's minimum time gets that strategy's full success probability. |
| `NeoFeed.SizeKey` | api/asteroids.py:41-44 | The sort key is the maximum diameter in km, and 0 when it is missing. |
| `NeoFeed.Flatten` | api/asteroids.py:36-38 | The per-date lists are joined in the order the reply lists its dates (dict iteration order), and the result is as long as all of them together. |
| `NeoFeed.FlattenAppend` | api/asteroids.py:37-39 | Flattening distributes over joining the date lists. |
| `NeoFeed.FlattenCons` | api/asteroids.py:37-39 | The flattened list is the first date's list followed by the rest. |
| `NeoFeed.FlattenCount` | api/asteroids.py:37-39 | Its length is the total over all dates; every object of every date is in it, and nothing else is. |
| `NeoFeed.Insert` | api/asteroids.py:42-45 | Insertion adds exactly one copy of the element (multiset). |
| `NeoFeed.SortBySizeDescending` | api/asteroids.py:42-45 | The sort is a permutation of its input (multiset equality). |
| `NeoFeed.InsertNonIncreasing` | api/asteroids.py:42-45 | Insertion into a largest-first list keeps it largest-first. |
| `NeoFeed.SortedNonIncreasing` | api/asteroids.py:42-45 | The sorted list is non-increasing by maximum diameter, with missing diameters as 0. |
| `NeoFeed.InsertStable` | api/asteroids.py:42-45 | Insertion places the new element before the equal-sized ones that followed it. |
| `NeoFeed.SortStable` | api/asteroids.py:42-45 | Stable under `reverse=True`: objects of equal size keep their input order. |
| `NeoFeed.Prefix` | api/asteroids.py:49 | A prefix of a largest-first list is largest-first and a sub-multiset. |
| `NeoFeed.PageOfSorted` | api/asteroids.py:49 | The page shown is largest-first and holds only feed objects. |
| `NeoFeed.GetAsteroids` | api/asteroids.py:16-59 | A failed request gives 503. A non-200 status gives 500 wrapping it, so the upstream status is lost. A 200 gives: count = full flattened length (not the page length); the list is the first min(count, 50) of the sorted flattening, largest first, drawn from the feed; the source label; the clock's time. |
| `NeoFeed.GetHazardousAsteroids` | api/asteroids.py:61-85 | It answers iff the reply is a 200, with the list passed through unchanged and count = its length. A failed request and a non-200 status both give 500. |

## Left out

- IEEE-754 rounding, overflow to infinity in `*` and NaN are not modelled: floats are exact reals.
- The OverflowError that float `**` raises on a result beyond the float range is not modelled. It is raised by `radius ** 3` and `velocity_ms ** 2` (backend/simulation.py:34 and :54) and by `(request.diameter/2)**3` and `velocity_ms**2` (api/simulation.py:25 and :27), for sizes above about 1.1e103 m or comparable velocities.
- SimulationRouter.SimulateImpactAsWrittenAlwaysFails: for a request whose size or velocity overflows `**` in the energy stage, the 500 carries that OverflowError instead of the missing-`velocity` TypeError. It is still a 500.
- SimulationRouter.SimulateImpactSucceeds: holds only for requests whose powers stay within the float range; beyond it the corrected handler answers 500 with the OverflowError.
- QuickSimulation.SimulateImpact: answers whenever megatons ≥ 0 only for inputs whose powers stay within the float range; beyond it `/impact` answers 500 with the OverflowError.
- QuickSimulation.SimulateImpactSucceeds: the same float-range restriction applies.
- The numeric values of π, fractional powers, log10, sin and sqrt are not modelled. Proofs use only the sign and range facts listed above.
- ImpactSimulator.CalculateAtmosphericEffects: for a negative energy Python returns complex radii rather than raising. The model reports a TypeError there. Every caller (the casualty stage's `int()`) raises that TypeError one step later, so the handlers' answers agree.
- The network calls, timeouts, `response.json()` decoding and its errors are not modelled; the upstream reply is a parameter. The clock (`datetime.now()`) is a parameter, and the request dates derived from it are not modelled.
- A JSON `null` diameter in the feed (which would make the sort compare `None` and raise) is not modelled; a diameter is present or absent.
- Pydantic parsing and type coercion are not modelled; only the field constraints, as validity predicates.
- FastAPI plumbing is not modelled: apps, routers, response models, `JSONResponse`, the Vercel handlers, CORS, and the static root and health endpoints.
- The unused class constants `EARTH_RADIUS`, `GRAVITY` and `WATER_DEPTH_AVG`, and the unused local `energy_mt` in the seismic stage, are not modelled. The crater stage uses its own local `gravity = 9.81`, which the model writes as a literal.
- The quick simulator's `target_location` is echoed but never computed on; it is modelled as a map with the default.
- `new_orbital_data` is declared but never set; it is absent in every result.
- backend/routers/asteroids.py is not part of this model.

## Findings

| source | as written | input that shows it | evidently intended | confidence | as-written member | corrected member |
|---|---|---|---|---|---|---|
| backend/routers/simulation.py:29-32 | `calculate_crater_size(energy_mt, params.is_water_impact)`: two positional arguments for a stage that needs `size, density, velocity` and takes an optional `is_water`, so the call raises TypeError (missing `velocity`). The `except` turns that into a 500, so `/simulate` never answers. | any valid request, e.g. size 100, density 3000, velocity 20, angle 45, location (0, 0) | `calculate_crater_size(params.size, params.density, params.velocity, params.is_water_impact)`, after which every valid request gets a full result | not executed | `SimulationRouter.SimulateImpactAsWrittenAlwaysFails` | `SimulationRouter.SimulateImpactSucceeds` |
