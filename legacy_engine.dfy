/**
 * The earlier engine of js/engine.js. It reads only the car and solar levers, folds them into
 * one scale factor, and applies that factor to the generation, emissions and operating cost of
 * a baseline that has no Solar entry and no capital cost.
 *
 * The baseline numbers are those of the current engine, so they are taken from `Engine`.
 */
module LegacyEngine {
  import opened Objects
  import opened Levers
  import opened Engine

  /** The three mappings the earlier `getBaseline` returns. */
  datatype Baseline = Baseline(production: Obj, emissions: Obj, cost: Obj)

  /** What the earlier `shockingUpdate` returns: no capital cost. */
  datatype Projection = Projection(production: Obj, emissions: Obj, cost: Obj, fleetEmissions: Obj)

  /** getBaseline: generation, emissions and cost of the five sources, Solar not among them. */
  function GetBaseline(): (b: Baseline)
    ensures Valid(b.production) && Valid(b.emissions) && Valid(b.cost)
    ensures b.production.keys == b.emissions.keys == b.cost.keys == PricedSources
    ensures Solar !in b.production.vals
  {
    Baseline(PricedMix(GenerationOf), PricedMix(EmissionsOf), PricedMix(CostOf))
  }

  /** The five sources produce the 41227 GWh of the current baseline, less its Solar 0. */
  lemma BaselineTotal()
    ensures Sum(GetBaseline().production) == TotalGeneration
  {
    var p := GetBaseline().production;
    var q := BaselineProduction();
    Engine.BaselineTotal();
    assert q.keys[..|q.keys| - 1] == p.keys;
    SumOverAgree(p.keys, p.vals, q.vals);
  }

  // ---------------------------------------------------------------------------
  // The scale factor
  // ---------------------------------------------------------------------------

  /** GWh a year the electric cars draw: every car the lever converts, no bicycle discount. */
  function LegacyEvDemand(i: Inputs): real
  {
    12032.0 * 0.2 * 3341013.0 * (i.carNumber / 100.0) / 1000000.0
  }

  /** Road fleet emissions in kt CO2-e once the car lever's share is electric; bicycles play no part. */
  function LegacyRoadEmissions(i: Inputs): real
  {
    12688.0 * (1.0 - i.carNumber / 100.0)
  }

  /** `increase_in_power_reqts`: 1, plus the EV demand, less the solar output, as shares. */
  function ScaleFactor(i: Inputs): real
  {
    1.0 + LegacyEvDemand(i) / TotalGeneration - SolarOutput(i) / TotalGeneration
  }

  /** One value multiplied by the factor, as `o[key] * increase_in_power_reqts` does. */
  function Scale(x: real, factor: real): real
  {
    x * factor
  }

  /** Every value of `o` multiplied by `factor`, keys in the same order. */
  function ScaledBy(o: Obj, factor: real): (r: Obj)
    requires Valid(o)
    ensures Valid(r)
  {
    Obj(o.keys, map k | k in o.vals :: Scale(o.vals[k], factor))
  }

  /** Scaling an object scales its sum. */
  lemma {:induction false} SumOverScaled(ks: seq<Key>, m: map<Key, real>, factor: real)
    requires forall k | k in ks :: k in m
    ensures SumOver(ks, map k | k in m :: Scale(m[k], factor)) == SumOver(ks, m) * factor
  {
    if ks != [] {
      SumOverScaled(ks[..|ks| - 1], m, factor);
    }
  }

  /** The sum of `ScaledBy(o, factor)` is `factor` times the sum of `o`. */
  lemma SumScaled(o: Obj, factor: real)
    requires Valid(o)
    ensures Sum(ScaledBy(o, factor)) == Sum(o) * factor
  {
    SumOverScaled(o.keys, o.vals, factor);
  }

  // ---------------------------------------------------------------------------
  // Closed form of a run
  // ---------------------------------------------------------------------------

  /** Each source's `valueOf` scaled by `factor`, then `solar` appended unscaled as Solar. */
  function ScaledProduction(valueOf: Key -> real, factor: real, solar: real): (o: Obj)
    ensures Valid(o)
  {
    Obj(GenerationSources, map k | k in GenerationSources :: if k == Solar then solar else Scale(valueOf(k), factor))
  }

  /**
   * The closed-form production lists the six generation sources once each, Solar last with
   * the unscaled `solar`, and every other source at its scaled value.
   */
  lemma ScaledProductionSources(valueOf: Key -> real, factor: real, solar: real)
    ensures var o := ScaledProduction(valueOf, factor, solar);
      && o.keys == GenerationSources && Distinct(o.keys) && o.keys[|o.keys| - 1] == Solar
      && o.vals[Solar] == solar
      && forall k | k in PricedSources :: k in o.vals && o.vals[k] == Scale(valueOf(k), factor)
  {
  }

  /** Each priced source's `valueOf` scaled by `factor`. */
  function ScaledOnce(valueOf: Key -> real, factor: real): Obj
  {
    Obj(PricedSources, map k | k in PricedSources :: Scale(valueOf(k), factor))
  }

  /** Each priced source's `valueOf` scaled by `factor`, and the result again by `factor`. */
  function ScaledTwice(valueOf: Key -> real, factor: real): Obj
  {
    Obj(PricedSources, map k | k in PricedSources :: Scale(Scale(valueOf(k), factor), factor))
  }

  /** What a run returns: emissions take the factor twice, production and cost once. */
  function Projected(i: Inputs): Projection
  {
    var f := ScaleFactor(i);
    Projection(
      ScaledProduction(GenerationOf, f, SolarOutput(i)),
      ScaledTwice(EmissionsOf, f),
      ScaledOnce(CostOf, f),
      Obj([Road], map[Road := LegacyRoadEmissions(i)]))
  }

  // ---------------------------------------------------------------------------
  // A run
  // ---------------------------------------------------------------------------

  /** The loop `for (var key in o) { o[key] = o[key] * factor; }`. */
  method ScaleAll(o: Obj, factor: real) returns (r: Obj)
    requires Valid(o)
    ensures r == ScaledBy(o, factor)
  {
    ghost var target := map k | k in o.vals :: Scale(o.vals[k], factor);
    r := o;
    for n := 0 to |o.keys|
      invariant RewrittenUpTo(o, target, n, r)
    {
      var key := o.keys[n];
      var v := r.vals[key] * factor;
      assert v == Scale(o.vals[key], factor);
      RewriteStep(o, target, n, r, v);
      r := r.(vals := r.vals[key := v]);
    }
    RewriteDone(o, target, r);
  }

  /** A scaled priced mix has no Solar key; appending one gives the production's key order. */
  lemma SolarAppended(s: Obj, valueOf: Key -> real, f: real)
    requires s == ScaledBy(PricedMix(valueOf), f)
    ensures Solar !in s.vals && s.keys + [Solar] == GenerationSources
  {
    assert Solar !in PricedSources;
  }

  /** A priced mix scaled, then `o['Solar'] = solar` appended. */
  lemma ProductionScaled(valueOf: Key -> real, f: real, solar: real, p: Obj)
    requires p == Put(ScaledBy(PricedMix(valueOf), f), Solar, solar)
    ensures p == ScaledProduction(valueOf, f, solar)
  {
    var s := ScaledBy(PricedMix(valueOf), f);
    var q := ScaledProduction(valueOf, f, solar);
    SolarAppended(s, valueOf, f);
    assert p.vals.Keys == q.vals.Keys;
    forall k | k in p.vals
      ensures p.vals[k] == q.vals[k]
    {
      if k != Solar {
        assert p.vals[k] == s.vals[k];
      }
    }
  }

  /** A priced mix scaled once. */
  lemma MixScaledOnce(valueOf: Key -> real, f: real, c: Obj)
    requires c == ScaledBy(PricedMix(valueOf), f)
    ensures c == ScaledOnce(valueOf, f)
  {
    var q := ScaledOnce(valueOf, f);
    assert c.vals.Keys == q.vals.Keys;
    forall k | k in c.vals
      ensures c.vals[k] == q.vals[k]
    {
    }
  }

  /** A priced mix scaled twice. */
  lemma MixScaledTwice(valueOf: Key -> real, f: real, e: Obj)
    requires e == ScaledBy(ScaledBy(PricedMix(valueOf), f), f)
    ensures e == ScaledTwice(valueOf, f)
  {
    var q := ScaledTwice(valueOf, f);
    assert e.vals.Keys == q.vals.Keys;
    forall k | k in e.vals
      ensures e.vals[k] == q.vals[k]
    {
    }
  }

  /** The road fleet keeps the share of its emissions the car lever leaves unconverted. */
  lemma FleetConverted(i: Inputs, f0: Obj, f1: Obj)
    requires f0 == BaselineFleetEmissions()
    requires f1 == Put(f0, Road, f0.vals[Road] * (1.0 - i.carNumber / 100.0))
    ensures f1 == Obj([Road], map[Road := LegacyRoadEmissions(i)])
  {
  }

  /**
   * shockingUpdate: the road fleet loses the electrified share of its emissions; the EV demand
   * raises and the solar output lowers one factor, which scales the emissions, then the
   * production (before Solar is added), the emissions again, and the cost.
   */
  method ShockingUpdate(inputs: Inputs) returns (result: Projection)
    ensures result == Projected(inputs)
  {
    var baseline := GetBaseline();
    var genProduction := baseline.production;
    var genEmissions := baseline.emissions;
    var genCost := baseline.cost;
    var fleetEmissions := BaselineFleetEmissions();
    ghost var fleet0 := fleetEmissions;

    // [1] Electric cars
    var electricPct := inputs.carNumber / 100.0;
    fleetEmissions := Put(fleetEmissions, Road, fleetEmissions.vals[Road] * (1.0 - electricPct));
    FleetConverted(inputs, fleet0, fleetEmissions);
    var evPowerReqts := 12032.0 * 0.2 * 3341013.0 * electricPct;
    evPowerReqts := evPowerReqts / 1000000.0;
    assert evPowerReqts == LegacyEvDemand(inputs);
    var totalGen := SumValues(genProduction);
    BaselineTotal();
    assert totalGen == TotalGeneration;
    var increaseInPowerReqts := 1.0 + evPowerReqts / totalGen;

    // [2] Solar houses
    var solarProduction := inputs.solarNumber * 5260.0;
    solarProduction := solarProduction / 1000000.0;
    assert solarProduction == SolarOutput(inputs);
    var decreaseDueToSolar := solarProduction / totalGen;
    increaseInPowerReqts := increaseInPowerReqts - decreaseDueToSolar;
    assert increaseInPowerReqts == ScaleFactor(inputs);

    genEmissions := ScaleAll(genEmissions, increaseInPowerReqts);
    genProduction := ScaleAll(genProduction, increaseInPowerReqts);
    genProduction := Put(genProduction, Solar, solarProduction);
    genEmissions := ScaleAll(genEmissions, increaseInPowerReqts);
    genCost := ScaleAll(genCost, increaseInPowerReqts);

    ProductionScaled(GenerationOf, increaseInPowerReqts, solarProduction, genProduction);
    MixScaledTwice(EmissionsOf, increaseInPowerReqts, genEmissions);
    MixScaledOnce(CostOf, increaseInPowerReqts, genCost);
    result := Projection(genProduction, genEmissions, genCost, fleetEmissions);
  }

  // ---------------------------------------------------------------------------
  // Properties
  // ---------------------------------------------------------------------------

  /** With no cars converted and no solar houses the factor is exactly 1. */
  lemma NoChangeUnitFactor(i: Inputs)
    requires i.carNumber == 0.0 && i.solarNumber == 0.0
    ensures ScaleFactor(i) == 1.0 && SolarOutput(i) == 0.0
  {
    assert LegacyEvDemand(i) == 0.0;
  }

  /** Scaling by 1, once or twice, leaves a priced mix as it was. */
  lemma UnitScaleKeepsMix(valueOf: Key -> real)
    ensures ScaledOnce(valueOf, 1.0) == PricedMix(valueOf)
    ensures ScaledTwice(valueOf, 1.0) == PricedMix(valueOf)
  {
    var m := PricedMix(valueOf);
    var once := ScaledOnce(valueOf, 1.0);
    var twice := ScaledTwice(valueOf, 1.0);
    assert once.vals.Keys == m.vals.Keys && twice.vals.Keys == m.vals.Keys;
    forall k | k in m.vals
      ensures once.vals[k] == m.vals[k] && twice.vals[k] == m.vals[k]
    {
    }
  }

  /**
   * With no cars converted and no solar houses a run returns the baseline production with a
   * Solar entry of 0, which is the current engine's baseline production.
   */
  lemma NoChangeKeepsProduction(i: Inputs)
    requires i.carNumber == 0.0 && i.solarNumber == 0.0
    ensures Projected(i).production == BaselineProduction()
  {
    NoChangeUnitFactor(i);
    var p := Projected(i).production;
    assert p.vals.Keys == BaselineProduction().vals.Keys;
    forall k | k in p.vals
      ensures p.vals[k] == BaselineProduction().vals[k]
    {
    }
  }

  /** With no cars converted and no solar houses a run returns the baseline emissions. */
  lemma NoChangeKeepsEmissions(i: Inputs)
    requires i.carNumber == 0.0 && i.solarNumber == 0.0
    ensures Projected(i).emissions == GetBaseline().emissions
  {
    NoChangeUnitFactor(i);
    UnitScaleKeepsMix(EmissionsOf);
  }

  /** With no cars converted and no solar houses a run returns the baseline cost. */
  lemma NoChangeKeepsCost(i: Inputs)
    requires i.carNumber == 0.0 && i.solarNumber == 0.0
    ensures Projected(i).cost == GetBaseline().cost
  {
    NoChangeUnitFactor(i);
    UnitScaleKeepsMix(CostOf);
  }

  /** With no cars converted the road fleet keeps its 12688 kt. */
  lemma NoCarsKeepFleet(i: Inputs)
    requires i.carNumber == 0.0
    ensures Projected(i).fleetEmissions == BaselineFleetEmissions()
  {
  }

  /** Two maps that agree on `ks` give the same sum over `ks`. */
  lemma {:induction false} SumOverAgree(ks: seq<Key>, m: map<Key, real>, n: map<Key, real>)
    requires forall k | k in ks :: k in m && k in n && m[k] == n[k]
    ensures SumOver(ks, m) == SumOver(ks, n)
  {
    if ks != [] {
      SumOverAgree(ks[..|ks| - 1], m, n);
    }
  }

  /** The production of a run adds up to the scaled priced sources plus the solar output. */
  lemma ProductionSum(valueOf: Key -> real, f: real, solar: real)
    ensures Sum(ScaledProduction(valueOf, f, solar)) == Sum(PricedMix(valueOf)) * f + solar
  {
    SolarLast(valueOf, f, solar);
    ScaledPricedSum(valueOf, f, solar);
    SumScaled(PricedMix(valueOf), f);
  }

  /** Solar comes last in the closed-form production, after the priced sources. */
  lemma SolarLast(valueOf: Key -> real, f: real, solar: real)
    ensures var p := ScaledProduction(valueOf, f, solar);
      Sum(p) == SumOver(PricedSources, p.vals) + solar
  {
    var p := ScaledProduction(valueOf, f, solar);
    assert p.keys[..|p.keys| - 1] == PricedSources;
  }

  /** The priced sources of the closed-form production add up to the scaled priced mix. */
  lemma ScaledPricedSum(valueOf: Key -> real, f: real, solar: real)
    ensures var p := ScaledProduction(valueOf, f, solar);
      SumOver(PricedSources, p.vals) == Sum(ScaledBy(PricedMix(valueOf), f))
  {
    var b := PricedMix(valueOf);
    var s := ScaledBy(b, f);
    var p := ScaledProduction(valueOf, f, solar);
    forall k | k in PricedSources
      ensures k in p.vals && k in s.vals && p.vals[k] == s.vals[k]
    {
      assert k != Solar && k in b.vals;
    }
    SumOverAgree(PricedSources, p.vals, s.vals);
  }

  /** The scaled baseline total plus the solar output. */
  lemma FactorTimesTotal(total: real, f: real, ev: real, solar: real)
    requires total == TotalGeneration
    requires f == 1.0 + ev / TotalGeneration - solar / TotalGeneration
    ensures total * f + solar == TotalGeneration + ev
  {
  }

  /**
   * The solar output taken off the other sources is added back as Solar, so a run's total
   * production is the baseline's 41227 GWh plus the EV demand, whatever the solar lever.
   */
  lemma TotalProduction(i: Inputs)
    ensures Sum(Projected(i).production) == TotalGeneration + LegacyEvDemand(i)
  {
    var f := ScaleFactor(i);
    var total := Sum(PricedMix(GenerationOf));
    calc {
      Sum(Projected(i).production);
      Sum(ScaledProduction(GenerationOf, f, SolarOutput(i)));
      { ProductionSum(GenerationOf, f, SolarOutput(i)); }
      total * f + SolarOutput(i);
      { BaselineTotal();
        FactorTimesTotal(total, f, LegacyEvDemand(i), SolarOutput(i)); }
      TotalGeneration + LegacyEvDemand(i);
    }
  }

  /** A non-negative value scaled twice by the same factor stays non-negative. */
  lemma ScaledTwiceNonNegative(x: real, f: real)
    requires x >= 0.0
    ensures Scale(Scale(x, f), f) >= 0.0
  {
    assert f * f >= 0.0;
    assert x * f * f == x * (f * f);
  }

  /**
   * Emissions take the factor twice, so they never go negative, even when so much solar is
   * added that the factor, and with it the production of every other source, turns negative.
   */
  lemma EmissionsNonNegative(i: Inputs, k: Key)
    requires k in Projected(i).emissions.vals
    ensures Projected(i).emissions.vals[k] >= 0.0
  {
    var f := ScaleFactor(i);
    assert Projected(i).emissions.vals[k] == Scale(Scale(EmissionsOf(k), f), f);
    ScaledTwiceNonNegative(EmissionsOf(k), f);
  }

  /** `(e f f) / (g f) == e / g * f` for non-zero `g` and `f`. */
  lemma Intensity(e: real, g: real, f: real)
    requires g != 0.0 && f != 0.0
    ensures Scale(g, f) != 0.0
    ensures Scale(Scale(e, f), f) / Scale(g, f) == e / g * f
  {
    assert g * f != 0.0;
    assert e * f * f == (e / g * f) * (g * f);
  }

  /**
   * Per GWh, a source's emissions move with the factor: for any baseline generation and
   * emissions, a source's emissions over its production after a run is its baseline
   * intensity times the factor.
   */
  lemma IntensityOf(
    emissionsOf: Key -> real, generationOf: Key -> real, f: real, solar: real, k: Key, e: real, g: real)
    requires k in PricedSources && e == emissionsOf(k) && g == generationOf(k) && g != 0.0 && f != 0.0
    ensures ScaledProduction(generationOf, f, solar).vals[k] != 0.0
    ensures ScaledTwice(emissionsOf, f).vals[k] / ScaledProduction(generationOf, f, solar).vals[k] == e / g * f
  {
    assert k != Solar;
    Intensity(e, g, f);
  }

  /** A source that emits nothing in the baseline still emits nothing after a run. */
  lemma ZeroEmittersStayClean(i: Inputs, k: Key)
    requires k in PricedSources && EmissionsOf(k) == 0.0
    ensures Projected(i).emissions.vals[k] == 0.0
  {
    assert Scale(0.0, ScaleFactor(i)) == 0.0;
  }
}
