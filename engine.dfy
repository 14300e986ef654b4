/**
 * The scenario engine of js/src/engine.js: five policy levers move a fixed 2013/2014
 * baseline of electricity generation, emissions, operating cost and capital cost.
 *
 * `ShockingUpdate` follows the source stage by stage (transport, solar, wind, insulation,
 * then the fold and the unit conversions) and is proved equal to `Projected`, a closed form
 * of the whole run written independently of the stages.
 *
 * The generation delta is a plain map: the engine never iterates over it, so the order of
 * its keys is never observed.
 */
module Engine {
  import opened Objects
  import opened Levers
  import opened JsNumbers

  /** The five mappings the engine reads from the baseline and returns. */
  datatype Scenario = Scenario(
    production: Obj,      // GWh per generation source
    emissions: Obj,       // kt CO2-e per generation source
    cost: Obj,            // operating cost per source ($, then $ millions)
    capitalCost: Obj,     // capital outlay per category ($, then $ billions)
    fleetEmissions: Obj)  // kt CO2-e of the road fleet

  // ---------------------------------------------------------------------------
  // Baseline
  // ---------------------------------------------------------------------------

  /** Annual generation in GWh of each source of the baseline. */
  function GenerationOf(k: Key): real
  {
    match k
    case Hydro => 24095.0
    case Geothermal => 6487.0
    case Wind => 2187.0
    case Coal => 1832.0
    case Gas => 6626.0
    case _ => 0.0
  }

  /** The sources that have a production entry, in the order `getBaseline` lists them. */
  const GenerationSources: seq<Key> := [Hydro, Geothermal, Wind, Coal, Gas, Solar]

  /** The sources that have an emissions and a cost entry: all but Solar. */
  const PricedSources: seq<Key> := [Hydro, Geothermal, Wind, Coal, Gas]

  /** Annual generation in GWh; Solar starts at 0. */
  function BaselineProduction(): (o: Obj)
    ensures Valid(o)
  {
    Obj(GenerationSources, map k | k in GenerationSources :: GenerationOf(k))
  }

  /** Annual emissions in kt CO2-e of each source of the baseline. */
  function EmissionsOf(k: Key): real
  {
    match k
    case Geothermal => 847.32
    case Coal => 1222.2
    case Gas => 3405.51
    case _ => 0.0
  }

  /** An object holding `valueOf(k)` for each priced source, in the order they are listed. */
  function PricedMix(valueOf: Key -> real): (o: Obj)
    ensures Valid(o)
  {
    Obj(PricedSources, map k | k in PricedSources :: valueOf(k))
  }

  /** Annual emissions in kt CO2-e; hydro and wind emit nothing, solar has no entry. */
  function BaselineEmissions(): Obj
  {
    PricedMix(EmissionsOf)
  }

  /** Annual operating cost in dollars of each source of the baseline. */
  function CostOf(k: Key): real
  {
    match k
    case Hydro => 53872180.0
    case Geothermal => 59535000.0
    case Wind => 43484000.0
    case Coal => 34177200.0
    case Gas => 161044192.0
    case _ => 0.0
  }

  /** Annual operating cost in dollars; solar has no entry. */
  function BaselineCost(): Obj
  {
    PricedMix(CostOf)
  }

  /** The capital-cost categories: every source, plus insulation and the road fleet. */
  const CapitalCategories: seq<Key> := [Hydro, Geothermal, Wind, Coal, Insulation, Gas, Solar, Road]

  /** Capital outlay in dollars: nothing yet in any category. */
  function BaselineCapitalCost(): (o: Obj)
    ensures Valid(o)
  {
    Obj(CapitalCategories, map k | k in CapitalCategories :: 0.0)
  }

  /** Road fleet emissions in kt CO2-e. */
  function BaselineFleetEmissions(): (o: Obj)
    ensures Valid(o)
  {
    Obj([Road], map[Road := 12688.0])
  }

  /**
   * getBaseline: a fresh copy of the 2013/2014 data on every call. Production lists the six
   * sources, emissions and cost the five that have them, capital the eight categories at 0;
   * the road fleet emits 12688 kt, and the production adds up to 41227 GWh.
   */
  function GetBaseline(): (b: Scenario)
    ensures Valid(b.production) && Valid(b.emissions) && Valid(b.cost)
    ensures Valid(b.capitalCost) && Valid(b.fleetEmissions)
    ensures b.production.keys == GenerationSources
    ensures b.emissions.keys == b.cost.keys == PricedSources
    ensures b.capitalCost.keys == CapitalCategories
    ensures forall k | k in b.capitalCost.vals :: b.capitalCost.vals[k] == 0.0
    ensures b.fleetEmissions.keys == [Road] && Road in b.fleetEmissions.vals && b.fleetEmissions.vals[Road] == 12688.0
    ensures Sum(b.production) == TotalGeneration
  {
    BaselineTotal();
    Scenario(BaselineProduction(), BaselineEmissions(), BaselineCost(),
             BaselineCapitalCost(), BaselineFleetEmissions())
  }

  /** Total baseline generation, the denominator of every proportional share. */
  const TotalGeneration: real := 41227.0

  /** The baseline production adds up to 41227 GWh, so no share divides by zero. */
  lemma BaselineTotal()
    ensures Sum(BaselineProduction()) == TotalGeneration
  {
    var p := BaselineProduction();
    assert p.keys[..5] == [Hydro, Geothermal, Wind, Coal, Gas];
    assert p.keys[..5][..4] == [Hydro, Geothermal, Wind, Coal];
    assert p.keys[..5][..4][..3] == [Hydro, Geothermal, Wind];
    assert p.keys[..5][..4][..3][..2] == [Hydro, Geothermal];
    assert p.keys[..5][..4][..3][..2][..1] == [Hydro];
    assert [Hydro][..0] == [];
    assert SumOver([Hydro], p.vals) == 24095.0;
    assert SumOver([Hydro, Geothermal], p.vals) == 30582.0;
    assert SumOver([Hydro, Geothermal, Wind], p.vals) == 32769.0;
    assert SumOver([Hydro, Geothermal, Wind, Coal], p.vals) == 34601.0;
    assert SumOver(p.keys[..5], p.vals) == 41227.0;
  }

  // ---------------------------------------------------------------------------
  // Quantities derived from the levers
  // ---------------------------------------------------------------------------

  /** Bicycles come off the fleet first; the car lever electrifies a share of the rest. */
  function ElectricShare(i: Inputs): real
  {
    (i.carNumber / 100.0) * (1.0 - i.bicycleNumber / 100.0)
  }

  /** Fraction of the road fleet's emissions that remains. */
  function FleetReduction(i: Inputs): real
  {
    (1.0 - i.bicycleNumber / 100.0) * (1.0 - i.carNumber / 100.0)
  }

  /** Road fleet emissions after the transport stage. */
  function RoadEmissions(i: Inputs): real
  {
    12688.0 * FleetReduction(i)
  }

  /** GWh a year the electric cars draw: 12032 km at 0.2 kWh/km for each of 3341013 vehicles. */
  function EvDemand(i: Inputs): real
  {
    12032.0 * 0.2 * 3341013.0 * ElectricShare(i) / 1000000.0
  }

  /** GWh a year from rooftop solar at 5260 kWh per household. */
  function SolarOutput(i: Inputs): real
  {
    i.solarNumber * 5260.0 / 1000000.0
  }

  /** GWh a year from new wind farms at 702 GWh each. */
  function WindOutput(i: Inputs): real
  {
    i.windfarmNumber * 702.0
  }

  /** GWh a year saved by insulation at 3571 kWh per home. */
  function InsulationSavings(i: Inputs): real
  {
    i.homeNumber * 3571.0 / 1000000.0
  }

  /** The capital a run spends in dollars, in the four categories the levers touch. */
  datatype Outlay = Outlay(road: real, solar: real, wind: real, insulation: real)

  /**
   * $40000 per electric car, $12495 per solar house, $521344918 per wind farm and $7630
   * per insulated home.
   */
  function OutlayOf(i: Inputs): Outlay
  {
    Outlay(ElectricShare(i) * 3341013.0 * 40000.0, i.solarNumber * 12495.0,
           i.windfarmNumber * 521344918.0, i.homeNumber * 7630.0)
  }

  /** Capital outlay in dollars per category; categories no lever touches keep their 0. */
  function CapitalOutlay(o: Outlay, k: Key): real
  {
    if k == Road then o.road
    else if k == Solar then o.solar
    else if k == Wind then o.wind
    else if k == Insulation then o.insulation
    else 0.0
  }

  // ---------------------------------------------------------------------------
  // Closed form of a run
  // ---------------------------------------------------------------------------

  /** The four changes in demand a run spreads over the sources, in GWh a year. */
  datatype Demand = Demand(ev: real, solar: real, wind: real, insulation: real)

  /** The changes the levers ask for. */
  function DemandOf(i: Inputs): Demand
  {
    Demand(EvDemand(i), SolarOutput(i), WindOutput(i), InsulationSavings(i))
  }

  /**
   * The generation delta of source `k` once all four stages have run, written without the
   * stages. Solar keeps exactly its new output. Wind keeps only the new farms' output less
   * two proportional shares: its earlier transport and solar terms are overwritten when the
   * new wind output is assigned, and the loop meant to skip Wind reduces it as well. Every
   * other source moves by its baseline share of the EV demand, less its share of the solar
   * output, twice its share of the wind output, and its share of the insulation savings.
   */
  function ProjectedDelta(d: Demand, k: Key): real
  {
    var T := TotalGeneration;
    if k == Solar then d.solar
    else if k == Wind then d.wind - 2187.0 * d.wind / T - 2187.0 * d.insulation / T
    else GenerationOf(k) * (d.ev - d.solar - 2.0 * d.wind - d.insulation) / T
  }

  /** The production of source `k` after a run. */
  function ProjectedGeneration(d: Demand, k: Key): real
  {
    GenerationOf(k) + ProjectedDelta(d, k)
  }

  /**
   * One source of a mix after the fold: `x + d * rate`, the rate being `x / p` when `x` is
   * positive and 0 otherwise, where `p` is the production already moved by `d`.
   */
  function Folded(x: real, p: real, d: real): real
    requires x > 0.0 ==> p != 0.0
  {
    x + d * (if x > 0.0 then x / p else 0.0)
  }

  /**
   * The fold divides by the moved production of every source whose emissions or cost is
   * positive, which is every source with a cost entry; none of those may end at 0.
   */
  ghost predicate FoldDefined(d: Demand)
  {
    forall k {:trigger FoldDefinedAt(d, k)} :: FoldDefinedAt(d, k)
  }

  /** Source `k`, when it is priced, does not end at 0. */
  ghost predicate FoldDefinedAt(d: Demand, k: Key)
  {
    k in PricedSources ==> ProjectedGeneration(d, k) != 0.0
  }

  /** The production a run returns, in closed form. */
  function ProjectedProduction(d: Demand): Obj
  {
    Obj(GenerationSources, map k | k in GenerationSources :: ProjectedGeneration(d, k))
  }

  /** A baseline mix of `valueOf` per priced source after the fold, in closed form. */
  function ProjectedFold(d: Demand, valueOf: Key -> real): Obj
    requires FoldDefined(d)
  {
    Obj(PricedSources, map k | k in PricedSources ::
                         assert FoldDefinedAt(d, k);
                         Folded(valueOf(k), ProjectedGeneration(d, k), ProjectedDelta(d, k)))
  }

  /** The operating cost a run returns, in $ millions, in closed form. */
  function ProjectedCost(d: Demand): Obj
    requires FoldDefined(d)
  {
    Obj(PricedSources, map k | k in PricedSources ::
                         assert FoldDefinedAt(d, k);
                         Folded(CostOf(k), ProjectedGeneration(d, k), ProjectedDelta(d, k)) / 1000000.0)
  }

  /** The capital cost a run returns, in $ billions, in closed form. */
  function ProjectedCapitalCost(o: Outlay): Obj
  {
    Obj(CapitalCategories, map k | k in CapitalCategories :: CapitalOutlay(o, k) / 1000000000.0)
  }

  /** What a run returns, in closed form. */
  function Projected(i: Inputs): Scenario
    requires FoldDefined(DemandOf(i))
  {
    var d := DemandOf(i);
    Scenario(ProjectedProduction(d), ProjectedFold(d, EmissionsOf), ProjectedCost(d),
             ProjectedCapitalCost(OutlayOf(i)), Obj([Road], map[Road := RoadEmissions(i)]))
  }

  // ---------------------------------------------------------------------------
  // Demand reallocation
  // ---------------------------------------------------------------------------

  /**
   * Key `k` of `r` is as reallocating `delta` over `production` at `share` left it: a key
   * of `production` outside `exceptions` has lost `production[k] * share`, a key the delta
   * lacked starting from 0; every other key is unchanged.
   */
  ghost predicate ReducedAt(
    delta: map<Key, real>, production: Obj, share: real, exceptions: seq<Key>, r: map<Key, real>, k: Key)
  {
    && (k in delta ==> k in r)
    && (k in r && k !in delta ==> k in production.vals && k !in exceptions)
    && (k in production.vals && k !in exceptions ==> k in r)
    && (k in production.vals && k !in exceptions ==> r[k] == ValueOr0(delta, k) - production.vals[k] * share)
    && (k in r && (k !in production.vals || k in exceptions) ==> r[k] == delta[k])
  }

  /**
   * `r` is `delta` after every key of `production` outside `exceptions` has had its share
   * taken off. A proof brings one key to bear by naming `ReducedAt` for it.
   */
  ghost predicate Reduced(
    delta: map<Key, real>, production: Obj, share: real, exceptions: seq<Key>, r: map<Key, real>)
  {
    forall k {:trigger ReducedAt(delta, production, share, exceptions, r, k)} ::
      ReducedAt(delta, production, share, exceptions, r, k)
  }

  /** The state of a reallocation loop once the first `n` keys of `production` are done. */
  ghost predicate ReducedUpTo(
    delta: map<Key, real>, production: Obj, share: real, exceptions: seq<Key>, n: int, r: map<Key, real>)
    requires Valid(production) && 0 <= n <= |production.keys|
  {
    var keys := production.keys;
    && (forall k | k in delta :: k in r)
    && (forall j | 0 <= j < n && keys[j] !in exceptions ::
          keys[j] in r && r[keys[j]] == ValueOr0(delta, keys[j]) - production.vals[keys[j]] * share)
    && (forall k | k in r && k !in delta :: k in production.vals && k !in exceptions)
    && (forall j | 0 <= j < |keys| && (n <= j || keys[j] in exceptions) ::
          (keys[j] in r <==> keys[j] in delta) && (keys[j] in r ==> r[keys[j]] == delta[keys[j]]))
    && (forall k | k in r && k !in production.vals :: r[k] == delta[k])
  }

  /** An exempt key leaves the delta as it is. */
  lemma ReduceSkip(
    delta: map<Key, real>, production: Obj, share: real, exceptions: seq<Key>, n: int, r: map<Key, real>)
    requires Valid(production) && 0 <= n < |production.keys|
    requires production.keys[n] in exceptions
    requires ReducedUpTo(delta, production, share, exceptions, n, r)
    ensures ReducedUpTo(delta, production, share, exceptions, n + 1, r)
  {
  }

  /** An unexempt key gets the value `v` its cut leaves. */
  lemma ReduceTake(
    delta: map<Key, real>, production: Obj, share: real, exceptions: seq<Key>, n: int,
    r: map<Key, real>, v: real)
    requires Valid(production) && 0 <= n < |production.keys|
    requires production.keys[n] !in exceptions
    requires ReducedUpTo(delta, production, share, exceptions, n, r)
    requires v == ValueOr0(r, production.keys[n]) - production.vals[production.keys[n]] * share
    ensures ReducedUpTo(delta, production, share, exceptions, n + 1, r[production.keys[n] := v])
  {
    var keys := production.keys;
    var key := keys[n];
    forall j | 0 <= j < |keys| && j != n
      ensures keys[j] != key
    {
    }
  }

  /** A finished loop has reallocated over every key of `production`. */
  lemma ReduceDone(
    delta: map<Key, real>, production: Obj, share: real, exceptions: seq<Key>, r: map<Key, real>)
    requires Valid(production)
    requires ReducedUpTo(delta, production, share, exceptions, |production.keys|, r)
    ensures Reduced(delta, production, share, exceptions, r)
  {
    forall k
      ensures ReducedAt(delta, production, share, exceptions, r, k)
    {
      if k in production.vals {
        assert Listed(production.keys, k);
        var j :| 0 <= j < |production.keys| && production.keys[j] == k;
      }
    }
  }

  /**
   * reduceDemand: spread a demand change of `reduction` GWh over the sources of `production`
   * outside `exceptions`, each in proportion to its production, by taking it off `delta`.
   */
  method ReduceDemand(
    delta: map<Key, real>, production: Obj, reduction: real, exceptions: seq<Key>)
    returns (r: map<Key, real>)
    requires Valid(production)
    requires Sum(production) != 0.0
    ensures Reduced(delta, production, reduction / Sum(production), exceptions, r)
  {
    var totalGen := SumValues(production);
    var decrease := reduction / totalGen;
    r := delta;
    for n := 0 to |production.keys|
      invariant ReducedUpTo(delta, production, decrease, exceptions, n, r)
    {
      var key := production.keys[n];
      if key in exceptions {
        ReduceSkip(delta, production, decrease, exceptions, n, r);
        continue;
      }
      var amountToReduce := production.vals[key] * decrease;
      var v := if key in r then r[key] - amountToReduce else 0.0 - amountToReduce;
      ReduceTake(delta, production, decrease, exceptions, n, r, v);
      r := r[key := v];
    }
    ReduceDone(delta, production, decrease, exceptions, r);
  }

  /** What one call took off the delta, summed over `ks`. */
  function Withdrawn(before: map<Key, real>, after: map<Key, real>, ks: seq<Key>): real
  {
    if ks == [] then 0.0
    else
      var k := ks[|ks| - 1];
      Withdrawn(before, after, ks[..|ks| - 1]) + (ValueOr0(before, k) - ValueOr0(after, k))
  }

  /** The sum of `m` over the keys of `ks` outside `exceptions`. */
  function SumOutside(ks: seq<Key>, m: map<Key, real>, exceptions: seq<Key>): real
    requires forall k | k in ks :: k in m
  {
    if ks == [] then 0.0
    else
      var k := ks[|ks| - 1];
      SumOutside(ks[..|ks| - 1], m, exceptions) + (if k in exceptions then 0.0 else m[k])
  }

  /**
   * Over any production keys, a reallocation at `share` withdraws `share` times their
   * unexempt production.
   */
  lemma {:induction false} WithdrawnOver(
    delta: map<Key, real>, production: Obj, share: real, exceptions: seq<Key>, r: map<Key, real>,
    ks: seq<Key>)
    requires Reduced(delta, production, share, exceptions, r)
    requires forall k | k in ks :: k in production.vals
    ensures Withdrawn(delta, r, ks) == share * SumOutside(ks, production.vals, exceptions)
  {
    if ks != [] {
      var init, k := ks[..|ks| - 1], ks[|ks| - 1];
      assert ReducedAt(delta, production, share, exceptions, r, k);
      WithdrawnOver(delta, production, share, exceptions, r, init);
      var x := if k in exceptions then 0.0 else production.vals[k];
      assert share * (SumOutside(init, production.vals, exceptions) + x)
          == share * SumOutside(init, production.vals, exceptions) + share * x;
    }
  }

  /** `(x / y) * y == x` for a non-zero `y`. */
  lemma DivTimes(x: real, y: real)
    requires y != 0.0
    ensures (x / y) * y == x
  {
  }

  /** `(x / y) * u < x` for positive `x` and `0 <= u < y`. */
  lemma DivTimesLess(x: real, y: real, u: real)
    requires x > 0.0 && 0.0 <= u < y
    ensures (x / y) * u < x
  {
    assert x / y > 0.0;
    assert (x / y) * u < (x / y) * y;
  }

  /**
   * When the exempt sources produce nothing, `reduceDemand` withdraws exactly the
   * `reduction` it is asked to, spread over the other sources.
   */
  lemma ReduceDemandConserves(
    delta: map<Key, real>, production: Obj, reduction: real, exceptions: seq<Key>,
    r: map<Key, real>)
    requires Valid(production) && Sum(production) != 0.0
    requires SumOutside(production.keys, production.vals, exceptions) == Sum(production)
    requires Reduced(delta, production, reduction / Sum(production), exceptions, r)
    ensures Withdrawn(delta, r, production.keys) == reduction
  {
    assert forall k | k in production.keys :: k in production.vals;
    WithdrawnOver(delta, production, reduction / Sum(production), exceptions, r, production.keys);
    DivTimes(reduction, Sum(production));
  }

  /**
   * When the exempt sources produce part of the total, `reduceDemand` withdraws less than a
   * positive `reduction`: nothing makes up for the exempt sources' share.
   */
  lemma ReduceDemandFallsShort(
    delta: map<Key, real>, production: Obj, reduction: real, exceptions: seq<Key>,
    r: map<Key, real>)
    requires Valid(production) && reduction > 0.0
    requires 0.0 <= SumOutside(production.keys, production.vals, exceptions) < Sum(production)
    requires Reduced(delta, production, reduction / Sum(production), exceptions, r)
    ensures Withdrawn(delta, r, production.keys) < reduction
  {
    assert forall k | k in production.keys :: k in production.vals;
    WithdrawnOver(delta, production, reduction / Sum(production), exceptions, r, production.keys);
    DivTimesLess(reduction, Sum(production), SumOutside(production.keys, production.vals, exceptions));
  }

  /** The baseline keys taken apart from the last, down to the empty sequence. */
  lemma BaselinePrefixes()
    ensures BaselineProduction().keys[..5] == [Hydro, Geothermal, Wind, Coal, Gas]
    ensures [Hydro, Geothermal, Wind, Coal, Gas][..4] == [Hydro, Geothermal, Wind, Coal]
    ensures [Hydro, Geothermal, Wind, Coal][..3] == [Hydro, Geothermal, Wind]
    ensures [Hydro, Geothermal, Wind][..2] == [Hydro, Geothermal]
    ensures [Hydro, Geothermal][..1] == [Hydro] && [Hydro][..0] == []
  {
  }

  /** With nothing exempt, the whole baseline production counts. */
  lemma BaselineUnexemptNone()
    ensures SumOutside(BaselineProduction().keys, BaselineProduction().vals, []) == 41227.0
  {
    var p := BaselineProduction();
    BaselinePrefixes();
    assert SumOutside([Hydro], p.vals, []) == 24095.0;
    assert SumOutside([Hydro, Geothermal], p.vals, []) == 30582.0;
    assert SumOutside([Hydro, Geothermal, Wind], p.vals, []) == 32769.0;
    assert SumOutside([Hydro, Geothermal, Wind, Coal], p.vals, []) == 34601.0;
    assert SumOutside(p.keys[..5], p.vals, []) == 41227.0;
  }

  /** Exempting Solar, which produces nothing in the baseline, changes nothing. */
  lemma BaselineUnexemptSolar()
    ensures SumOutside(BaselineProduction().keys, BaselineProduction().vals, [Solar]) == 41227.0
  {
    var p := BaselineProduction();
    BaselinePrefixes();
    assert SumOutside([Hydro], p.vals, [Solar]) == 24095.0;
    assert SumOutside([Hydro, Geothermal], p.vals, [Solar]) == 30582.0;
    assert SumOutside([Hydro, Geothermal, Wind], p.vals, [Solar]) == 32769.0;
    assert SumOutside([Hydro, Geothermal, Wind, Coal], p.vals, [Solar]) == 34601.0;
    assert SumOutside(p.keys[..5], p.vals, [Solar]) == 41227.0;
  }

  /** Exempting Solar and Wind leaves out Wind's 2187 GWh. */
  lemma BaselineUnexemptSolarWind()
    ensures SumOutside(BaselineProduction().keys, BaselineProduction().vals, [Solar, Wind]) == 39040.0
  {
    var p := BaselineProduction();
    BaselinePrefixes();
    assert Hydro !in [Solar, Wind] && Geothermal !in [Solar, Wind];
    assert Coal !in [Solar, Wind] && Gas !in [Solar, Wind];
    assert SumOutside([Hydro], p.vals, [Solar, Wind]) == 24095.0;
    assert SumOutside([Hydro, Geothermal], p.vals, [Solar, Wind]) == 30582.0;
    assert SumOutside([Hydro, Geothermal, Wind], p.vals, [Solar, Wind]) == 30582.0;
    assert SumOutside([Hydro, Geothermal, Wind, Coal], p.vals, [Solar, Wind]) == 32414.0;
    assert SumOutside(p.keys[..5], p.vals, [Solar, Wind]) == 39040.0;
  }

  // ---------------------------------------------------------------------------
  // The other loops of a run
  // ---------------------------------------------------------------------------

  /** The insulation stage, which exempts nothing, withdraws exactly the savings. */
  lemma InsulationConserves(delta: map<Key, real>, r: map<Key, real>, savings: real)
    requires Reduced(delta, BaselineProduction(), savings / TotalGeneration, [], r)
    ensures Withdrawn(delta, r, BaselineProduction().keys) == savings
  {
    BaselineTotal();
    BaselineUnexemptNone();
    ReduceDemandConserves(delta, BaselineProduction(), savings, [], r);
  }

  /** The solar stage exempts only Solar, which produces nothing, so it withdraws exactly the output. */
  lemma SolarConserves(delta: map<Key, real>, r: map<Key, real>, output: real)
    requires Reduced(delta, BaselineProduction(), output / TotalGeneration, [Solar], r)
    ensures Withdrawn(delta, r, BaselineProduction().keys) == output
  {
    BaselineTotal();
    BaselineUnexemptSolar();
    ReduceDemandConserves(delta, BaselineProduction(), output, [Solar], r);
  }

  /** The first wind reduction exempts Wind's 2187 GWh, so it withdraws less than the new output. */
  lemma WindFallsShort(delta: map<Key, real>, r: map<Key, real>, output: real)
    requires output > 0.0
    requires Reduced(delta, BaselineProduction(), output / TotalGeneration, [Solar, Wind], r)
    ensures Withdrawn(delta, r, BaselineProduction().keys) < output
  {
    BaselineTotal();
    BaselineUnexemptSolarWind();
    ReduceDemandFallsShort(delta, BaselineProduction(), output, [Solar, Wind], r);
  }

  /**
   * Key `k` of `r` is as the transport loop left `delta`: a production key holds
   * `production[k] * share`, any other key keeps its entry.
   */
  ghost predicate SpreadAt(delta: map<Key, real>, production: Obj, share: real, r: map<Key, real>, k: Key)
  {
    && (k in r <==> k in delta || k in production.vals)
    && (k in production.vals ==> r[k] == production.vals[k] * share)
    && (k in r && k !in production.vals ==> r[k] == delta[k])
  }

  /** `r` is `delta` with every key of `production` set to its share. */
  ghost predicate Spread(delta: map<Key, real>, production: Obj, share: real, r: map<Key, real>)
  {
    forall k {:trigger SpreadAt(delta, production, share, r, k)} :: SpreadAt(delta, production, share, r, k)
  }

  /** The state of the transport loop once the first `n` keys of `production` are assigned. */
  ghost predicate SpreadUpTo(delta: map<Key, real>, production: Obj, share: real, n: int, r: map<Key, real>)
    requires Valid(production) && 0 <= n <= |production.keys|
  {
    var keys := production.keys;
    && (forall k | k in delta :: k in r)
    && (forall k | k in r && k !in delta :: k in production.vals)
    && (forall j | 0 <= j < n :: keys[j] in r && r[keys[j]] == production.vals[keys[j]] * share)
    && (forall j | n <= j < |keys| ::
          (keys[j] in r <==> keys[j] in delta) && (keys[j] in r ==> r[keys[j]] == delta[keys[j]]))
    && (forall k | k in r && k !in production.vals :: r[k] == delta[k])
  }

  /** Assigning the next key its share. */
  lemma SpreadStep(delta: map<Key, real>, production: Obj, share: real, n: int, r: map<Key, real>, v: real)
    requires Valid(production) && 0 <= n < |production.keys|
    requires SpreadUpTo(delta, production, share, n, r)
    requires v == production.vals[production.keys[n]] * share
    ensures SpreadUpTo(delta, production, share, n + 1, r[production.keys[n] := v])
  {
    var keys := production.keys;
    forall j | 0 <= j < |keys| && j != n
      ensures keys[j] != keys[n]
    {
    }
  }

  /** Transport: `generation_delta[key] = gen_production[key] * increase` for every production key. */
  method SpreadIncrease(delta: map<Key, real>, production: Obj, increase: real)
    returns (r: map<Key, real>)
    requires Valid(production)
    ensures Spread(delta, production, increase, r)
  {
    r := delta;
    for n := 0 to |production.keys|
      invariant SpreadUpTo(delta, production, increase, n, r)
    {
      var key := production.keys[n];
      var v := production.vals[key] * increase;
      SpreadStep(delta, production, increase, n, r, v);
      r := r[key := v];
    }
    forall k
      ensures SpreadAt(delta, production, increase, r, k)
    {
      if k in production.vals {
        assert Listed(production.keys, k);
        var j :| 0 <= j < |production.keys| && production.keys[j] == k;
      }
    }
  }

  /**
   * The second wind reduction: take `production[key] * decrease` off the delta of every key
   * whose production "differs from 'Wind'". The text `'Wind'` converts to NaN, which no
   * number equals, so the test never fails and no key is skipped, Wind included.
   */
  method ReduceForNewWind(delta: map<Key, real>, production: Obj, decrease: real)
    returns (r: map<Key, real>)
    requires Valid(production)
    ensures Reduced(delta, production, decrease, [], r)
  {
    r := delta;
    for n := 0 to |production.keys|
      invariant ReducedUpTo(delta, production, decrease, [], n, r)
    {
      var key := production.keys[n];
      EveryNumberDiffersFromWind(production.vals[key]);
      if LooseNotEquals(production.vals[key], "Wind") {
        var amountToReduce := production.vals[key] * decrease;
        var v := if key in r then r[key] - amountToReduce else 0.0 - amountToReduce;
        ReduceTake(delta, production, decrease, [], n, r, v);
        r := r[key := v];
      }
    }
    ReduceDone(delta, production, decrease, [], r);
  }

  /** The fold: `gen_production[key] += generation_delta[key]` for every production key. */
  method ApplyDelta(production: Obj, delta: map<Key, real>) returns (r: Obj)
    requires Valid(production)
    requires forall k | k in production.vals :: k in delta
    ensures r == Obj(production.keys, map k | k in production.vals :: production.vals[k] + delta[k])
  {
    ghost var target := map k | k in production.vals :: production.vals[k] + delta[k];
    r := production;
    for n := 0 to |production.keys|
      invariant RewrittenUpTo(production, target, n, r)
    {
      var key := production.keys[n];
      var v := r.vals[key] + delta[key];
      RewriteStep(production, target, n, r, v);
      r := r.(vals := r.vals[key := v]);
    }
    RewriteDone(production, target, r);
  }

  /**
   * The fold of emissions or cost: each key of `mix` gains `delta[key]` times its rate, the
   * rate being `mix[key] / production[key]` (production already moved) when `mix[key]` is
   * positive and 0 otherwise.
   */
  method FoldAtRate(mix: Obj, production: Obj, delta: map<Key, real>) returns (r: Obj)
    requires Valid(mix)
    requires forall k | k in mix.vals :: k in delta
    requires forall k | k in mix.vals && mix.vals[k] > 0.0 :: k in production.vals && production.vals[k] != 0.0
    ensures r == Obj(mix.keys, map k | k in mix.vals :: Folded(mix.vals[k], ValueOr0(production.vals, k), delta[k]))
  {
    ghost var target := map k | k in mix.vals :: Folded(mix.vals[k], ValueOr0(production.vals, k), delta[k]);
    r := mix;
    for n := 0 to |mix.keys|
      invariant RewrittenUpTo(mix, target, n, r)
    {
      var key := mix.keys[n];
      var x := r.vals[key];
      var perUnit := 0.0;
      if x > 0.0 {
        perUnit := x / production.vals[key];
      }
      var v := x + delta[key] * perUnit;
      assert v == Folded(mix.vals[key], ValueOr0(production.vals, key), delta[key]);
      RewriteStep(mix, target, n, r, v);
      r := r.(vals := r.vals[key := v]);
    }
    RewriteDone(mix, target, r);
  }

  /** Unit conversion: every value of `o` divided by `divisor`. */
  method DivideAll(o: Obj, divisor: real) returns (r: Obj)
    requires Valid(o) && divisor != 0.0
    ensures r == Obj(o.keys, map k | k in o.vals :: o.vals[k] / divisor)
  {
    ghost var target := map k | k in o.vals :: o.vals[k] / divisor;
    r := o;
    for n := 0 to |o.keys|
      invariant RewrittenUpTo(o, target, n, r)
    {
      var key := o.keys[n];
      var v := r.vals[key] / divisor;
      RewriteStep(o, target, n, r, v);
      r := r.(vals := r.vals[key := v]);
    }
    RewriteDone(o, target, r);
  }

  // ---------------------------------------------------------------------------
  // A run
  // ---------------------------------------------------------------------------

  /** The wind reallocation exempts Wind, so the new wind output assigned before it survives. */
  lemma WindSurvives(
    d3: map<Key, real>, d4: map<Key, real>, production: Obj, share: real, d5: map<Key, real>, w: real)
    requires d4 == d3[Wind := w]
    requires Reduced(d4, production, share, [Solar, Wind], d5)
    ensures Wind in d5 && d5[Wind] == w
  {
    assert ReducedAt(d4, production, share, [Solar, Wind], d5, Wind);
  }

  /** What a reallocation leaves a production key that the delta already holds. */
  lemma ReducedValue(
    delta: map<Key, real>, production: Obj, share: real, exceptions: seq<Key>, r: map<Key, real>, k: Key)
    requires Reduced(delta, production, share, exceptions, r)
    requires k in production.vals && k in delta
    ensures k in r
    ensures r[k] == if k in exceptions then delta[k] else delta[k] - production.vals[k] * share
  {
    assert ReducedAt(delta, production, share, exceptions, r, k);
  }

  /**
   * The delta of one production key after the four stages, each stage given by the contract
   * of the loop that runs it: `s1` is the transport share, `s2` to `s5` the shares of the
   * solar, wind, second wind and insulation reallocations.
   */
  lemma StageAt(
    d1: map<Key, real>, d2: map<Key, real>, d3: map<Key, real>, d4: map<Key, real>,
    d5: map<Key, real>, d6: map<Key, real>, d7: map<Key, real>,
    production: Obj, s1: real, s2: real, s3: real, s4: real, s5: real, sol: real, w: real, k: Key)
    requires k in production.vals
    requires Spread(map[], production, s1, d1)
    requires d2 == d1[Solar := sol]
    requires Reduced(d2, production, s2, [Solar], d3)
    requires d4 == d3[Wind := w]
    requires Reduced(d4, production, s3, [Solar, Wind], d5)
    requires Reduced(d5, production, s4, [], d6)
    requires Reduced(d6, production, s5, [], d7)
    ensures k in d7
    ensures
      var p := production.vals[k];
      d7[k] == (if k == Solar then sol else if k == Wind then w else p * s1 - p * s2 - p * s3) - p * s4 - p * s5
  {
    assert SpreadAt(map[], production, s1, d1, k);
    ReducedValue(d2, production, s2, [Solar], d3, k);
    ReducedValue(d4, production, s3, [Solar, Wind], d5, k);
    ReducedValue(d5, production, s4, [], d6, k);
    ReducedValue(d6, production, s5, [], d7, k);
  }

  /** Every production key's delta after the four stages is the closed form's. */
  lemma StagesDelta(
    d: Demand, P: Obj, d1: map<Key, real>, d2: map<Key, real>, d3: map<Key, real>,
    d4: map<Key, real>, d5: map<Key, real>, d6: map<Key, real>, d7: map<Key, real>)
    requires forall k | k in GenerationSources :: k in P.vals && P.vals[k] == GenerationOf(k)
    requires Spread(map[], P, d.ev / TotalGeneration, d1)
    requires d2 == d1[Solar := d.solar]
    requires Reduced(d2, P, d.solar / TotalGeneration, [Solar], d3)
    requires d4 == d3[Wind := d.wind]
    requires Reduced(d4, P, d.wind / TotalGeneration, [Solar, Wind], d5)
    requires Reduced(d5, P, d.wind / TotalGeneration, [], d6)
    requires Reduced(d6, P, d.insulation / TotalGeneration, [], d7)
    ensures forall k | k in GenerationSources :: k in d7 && d7[k] == ProjectedDelta(d, k)
  {
    var T := TotalGeneration;
    forall k | k in GenerationSources
      ensures k in d7 && d7[k] == ProjectedDelta(d, k)
    {
      StageAt(d1, d2, d3, d4, d5, d6, d7, P, d.ev / T, d.solar / T, d.wind / T, d.wind / T,
              d.insulation / T, d.solar, d.wind, k);
      if k !in {Solar, Wind} {
        DistributeShare(P.vals[k], d.ev, d.solar, d.wind, d.insulation);
      }
    }
  }

  /** Distributing one baseline share over the five terms of a non-wind source's delta. */
  lemma DistributeShare(p: real, ev: real, sol: real, w: real, ins: real)
    ensures p * (ev / TotalGeneration) - p * (sol / TotalGeneration) - p * (w / TotalGeneration)
              - p * (w / TotalGeneration) - p * (ins / TotalGeneration)
         == p * (ev - sol - 2.0 * w - ins) / TotalGeneration
  {
  }

  /** Moving the baseline production by the staged delta gives the closed-form production. */
  lemma ProductionProjected(d: Demand, d7: map<Key, real>)
    requires forall k | k in GenerationSources :: k in d7 && d7[k] == ProjectedDelta(d, k)
    ensures var P := BaselineProduction();
            && (forall k | k in P.vals :: k in d7)
            && Obj(P.keys, map k | k in P.vals :: P.vals[k] + d7[k]) == ProjectedProduction(d)
  {
  }

  /**
   * Folding a delta that holds `dk(k)` for each priced source into a baseline mix, at the
   * rates a production holding a non-zero `gen(k)` gives, whatever the two functions are.
   */
  lemma FoldMix(valueOf: Key -> real, gen: Key -> real, dk: Key -> real, P: Obj, d7: map<Key, real>)
    requires forall k | k in PricedSources :: k in P.vals && P.vals[k] == gen(k) != 0.0
    requires forall k | k in PricedSources :: k in d7 && d7[k] == dk(k)
    ensures var mix := PricedMix(valueOf);
            && (forall k | k in mix.vals :: k in d7)
            && (forall k | k in mix.vals && mix.vals[k] > 0.0 :: k in P.vals && P.vals[k] != 0.0)
            && Obj(mix.keys, map k | k in mix.vals :: Folded(mix.vals[k], ValueOr0(P.vals, k), d7[k]))
               == Obj(PricedSources, map k | k in PricedSources :: Folded(valueOf(k), gen(k), dk(k)))
  {
    var mix := PricedMix(valueOf);
    var folded := map k | k in mix.vals :: Folded(mix.vals[k], ValueOr0(P.vals, k), d7[k]);
    var closed := map k | k in PricedSources :: Folded(valueOf(k), gen(k), dk(k));
    assert folded.Keys == closed.Keys;
    forall k | k in folded
      ensures folded[k] == closed[k]
    {
      assert ValueOr0(P.vals, k) == gen(k);
    }
  }

  /**
   * Folding the staged delta into a baseline mix, at the rates the moved production gives,
   * is defined and gives the closed-form fold.
   */
  lemma FoldProjected(d: Demand, d7: map<Key, real>, valueOf: Key -> real)
    requires FoldDefined(d)
    requires forall k | k in GenerationSources :: k in d7 && d7[k] == ProjectedDelta(d, k)
    ensures var mix, P := PricedMix(valueOf), ProjectedProduction(d);
            && (forall k | k in mix.vals :: k in d7)
            && (forall k | k in mix.vals && mix.vals[k] > 0.0 :: k in P.vals && P.vals[k] != 0.0)
            && Obj(mix.keys, map k | k in mix.vals :: Folded(mix.vals[k], ValueOr0(P.vals, k), d7[k]))
               == ProjectedFold(d, valueOf)
  {
    var gen, dk := k => ProjectedGeneration(d, k), k => ProjectedDelta(d, k);
    MovedProductionNonZero(d);
    FoldMix(valueOf, gen, dk, ProjectedProduction(d), d7);
    ProjectedFoldOf(d, valueOf, gen, dk);
  }

  /** A run's fold divides by the moved production of each priced source, which is not 0. */
  lemma MovedProductionNonZero(d: Demand)
    requires FoldDefined(d)
    ensures forall k | k in PricedSources ::
              k in ProjectedProduction(d).vals && ProjectedProduction(d).vals[k] == ProjectedGeneration(d, k) != 0.0
  {
    forall k | k in PricedSources
      ensures ProjectedGeneration(d, k) != 0.0
    {
      assert FoldDefinedAt(d, k);
    }
  }

  /** The closed-form fold, with the moved production and the delta passed as functions. */
  lemma ProjectedFoldOf(d: Demand, valueOf: Key -> real, gen: Key -> real, dk: Key -> real)
    requires FoldDefined(d)
    requires forall k :: gen(k) == ProjectedGeneration(d, k) && dk(k) == ProjectedDelta(d, k)
    requires forall k | k in PricedSources :: gen(k) != 0.0
    ensures ProjectedFold(d, valueOf)
         == Obj(PricedSources, map k | k in PricedSources :: Folded(valueOf(k), gen(k), dk(k)))
  {
  }

  /** Converting the folded cost to $ millions gives the closed-form cost. */
  lemma CostProjected(d: Demand, c: Obj)
    requires FoldDefined(d)
    requires c == ProjectedFold(d, CostOf)
    ensures Obj(c.keys, map k | k in c.vals :: c.vals[k] / 1000000.0) == ProjectedCost(d)
  {
  }

  /**
   * Setting the four categories the levers touch and converting to $ billions gives the
   * closed-form capital cost.
   */
  lemma CapitalProjected(o: Outlay, c0: Obj, c1: Obj, c2: Obj, c3: Obj, c4: Obj)
    requires c0 == BaselineCapitalCost()
    requires c1 == Put(c0, Road, o.road) && c2 == Put(c1, Solar, o.solar)
    requires c3 == Put(c2, Wind, o.wind) && c4 == Put(c3, Insulation, o.insulation)
    ensures Obj(c4.keys, map k | k in c4.vals :: c4.vals[k] / 1000000000.0) == ProjectedCapitalCost(o)
  {
    assert Road in c0.vals && Solar in c0.vals && Wind in c0.vals && Insulation in c0.vals;
    CapitalSet(o, c4.vals);
    CapitalInBillions(o, c4);
  }

  /** The transport stage leaves the road fleet its remaining share of the baseline emissions. */
  lemma FleetProjected(i: Inputs, f0: Obj, f1: Obj)
    requires f0 == BaselineFleetEmissions()
    requires f1 == Put(f0, Road, f0.vals[Road] * FleetReduction(i))
    ensures f1 == Obj([Road], map[Road := RoadEmissions(i)])
  {
  }

  /** The capital outlay per category once the four categories are set. */
  lemma CapitalSet(o: Outlay, v: map<Key, real>)
    requires v == (map k | k in CapitalCategories :: 0.0)[Road := o.road][Solar := o.solar][Wind := o.wind][Insulation := o.insulation]
    ensures v == map k | k in CapitalCategories :: CapitalOutlay(o, k)
  {
  }

  /** Dividing every category's outlay by 10^9. */
  lemma CapitalInBillions(o: Outlay, c: Obj)
    requires c.keys == CapitalCategories
    requires c.vals == map k | k in CapitalCategories :: CapitalOutlay(o, k)
    ensures Obj(c.keys, map k | k in c.vals :: c.vals[k] / 1000000000.0) == ProjectedCapitalCost(o)
  {
    var r := map k | k in c.vals :: c.vals[k] / 1000000000.0;
    assert r.Keys == ProjectedCapitalCost(o).vals.Keys;
    forall k | k in r
      ensures r[k] == ProjectedCapitalCost(o).vals[k]
    {
    }
  }

  /** Assigning equal numbers gives equal objects. */
  lemma SameValue(o: Obj, k: Key, v: real, w: real)
    requires Valid(o) && v == w
    ensures Put(o, k, v) == Put(o, k, w)
  {
  }

  /**
   * Section [1] of a run, transport: bicycles and electric cars cut the road fleet's
   * emissions, the cars' power demand is spread over every source in proportion to its
   * production, and the cars are paid for.
   */
  method TransportStage(inputs: Inputs, genProduction: Obj, totalGen: real, capital: Obj, fleet: Obj)
    returns (generationDelta: map<Key, real>, genCapitalCost: Obj, fleetEmissions: Obj)
    requires Valid(genProduction) && Valid(capital) && Valid(fleet) && Road in fleet.vals
    requires totalGen != 0.0
    ensures Spread(map[], genProduction, EvDemand(inputs) / totalGen, generationDelta)
    ensures genCapitalCost == Put(capital, Road, OutlayOf(inputs).road)
    ensures fleetEmissions == Put(fleet, Road, fleet.vals[Road] * FleetReduction(inputs))
  {
    var electricCars := inputs.carNumber;
    var bikes := inputs.bicycleNumber;
    var fleetReduction := 1.0;
    fleetReduction := fleetReduction - bikes / 100.0;
    fleetReduction := fleetReduction * (1.0 - electricCars / 100.0);
    var electricPct := (electricCars / 100.0) * (1.0 - bikes / 100.0);
    assert electricPct == ElectricShare(inputs);
    fleetEmissions := Put(fleet, Road, fleet.vals[Road] * fleetReduction);
    SameValue(fleet, Road, fleet.vals[Road] * fleetReduction, fleet.vals[Road] * FleetReduction(inputs));
    var evPowerReqts := 12032.0 * 0.2 * 3341013.0 * electricPct;
    evPowerReqts := evPowerReqts / 1000000.0;
    var increaseInPowerReqts := evPowerReqts / totalGen;
    generationDelta := SpreadIncrease(map[], genProduction, increaseInPowerReqts);
    genCapitalCost := Put(capital, Road, electricPct * 3341013.0 * 40000.0);
  }

  /**
   * Section [2] of a run, solar houses: the houses' output is added to Solar's delta and
   * taken off every other source in proportion to its production, and the panels are paid
   * for.
   */
  method SolarStage(inputs: Inputs, genProduction: Obj, delta: map<Key, real>, capital: Obj)
    returns (generationDelta: map<Key, real>, genCapitalCost: Obj)
    requires Valid(genProduction) && Sum(genProduction) != 0.0 && Valid(capital)
    ensures Reduced(delta[Solar := SolarOutput(inputs)], genProduction,
                    SolarOutput(inputs) / Sum(genProduction), [Solar], generationDelta)
    ensures genCapitalCost == Put(capital, Solar, OutlayOf(inputs).solar)
  {
    var solarHouses := inputs.solarNumber;
    genCapitalCost := Put(capital, Solar, solarHouses * 12495.0);
    var solarProduction := solarHouses * 5260.0;
    solarProduction := solarProduction / 1000000.0;
    generationDelta := delta[Solar := solarProduction];
    generationDelta := ReduceDemand(generationDelta, genProduction, solarProduction, [Solar]);
  }

  /**
   * Section [3] of a run, wind: the new farms' output becomes Wind's delta and is taken off
   * the sources other than Solar and Wind, and then a second time off every source, Wind
   * included; the farms are paid for. `afterExempt` is the delta between the two
   * reductions.
   */
  method WindStage(inputs: Inputs, genProduction: Obj, totalGen: real, delta: map<Key, real>, capital: Obj)
    returns (generationDelta: map<Key, real>, genCapitalCost: Obj, ghost afterExempt: map<Key, real>)
    requires Valid(genProduction) && totalGen == Sum(genProduction) && totalGen != 0.0
    requires Valid(capital)
    ensures Reduced(delta[Wind := WindOutput(inputs)], genProduction, WindOutput(inputs) / totalGen,
                    [Solar, Wind], afterExempt)
    ensures Reduced(afterExempt, genProduction, WindOutput(inputs) / totalGen, [], generationDelta)
    ensures genCapitalCost == Put(capital, Wind, OutlayOf(inputs).wind)
  {
    var newWind := inputs.windfarmNumber;
    genCapitalCost := Put(capital, Wind, newWind * 521344918.0);
    generationDelta := delta[Wind := newWind * 702.0];
    ghost var withNewWind := generationDelta;
    generationDelta := ReduceDemand(generationDelta, genProduction, generationDelta[Wind], [Solar, Wind]);
    afterExempt := generationDelta;
    WindSurvives(delta, withNewWind, genProduction, WindOutput(inputs) / totalGen, afterExempt, WindOutput(inputs));
    var decreaseDueToWind := generationDelta[Wind] / totalGen;
    generationDelta := ReduceForNewWind(generationDelta, genProduction, decreaseDueToWind);
  }

  /**
   * Section [4] of a run, insulation: the savings are taken off every source in proportion
   * to its production, and the insulation is paid for.
   */
  method InsulationStage(inputs: Inputs, genProduction: Obj, delta: map<Key, real>, capital: Obj)
    returns (generationDelta: map<Key, real>, genCapitalCost: Obj)
    requires Valid(genProduction) && Sum(genProduction) != 0.0 && Valid(capital)
    ensures Reduced(delta, genProduction, InsulationSavings(inputs) / Sum(genProduction), [], generationDelta)
    ensures genCapitalCost == Put(capital, Insulation, OutlayOf(inputs).insulation)
  {
    var newInsul := inputs.homeNumber;
    genCapitalCost := Put(capital, Insulation, newInsul * 7630.0);
    var powerSavingsFromInsul := newInsul * 3571.0;
    powerSavingsFromInsul := powerSavingsFromInsul / 1000000.0;
    generationDelta := ReduceDemand(delta, genProduction, powerSavingsFromInsul, []);
  }

  /**
   * shockingUpdate: a run of the engine from the baseline, section by section, returns
   * what the closed form `Projected` gives for the same levers.
   */
  method ShockingUpdate(inputs: Inputs) returns (result: Scenario)
    requires FoldDefined(DemandOf(inputs))
    ensures result == Projected(inputs)
  {
    ghost var d, o := DemandOf(inputs), OutlayOf(inputs);
    var baseline := GetBaseline();
    var genProduction := baseline.production;
    var genEmissions := baseline.emissions;
    var genCost := baseline.cost;
    var genCapitalCost := baseline.capitalCost;
    var fleetEmissions := baseline.fleetEmissions;
    ghost var c0, f0 := genCapitalCost, fleetEmissions;

    // [0] total current generation
    var totalGen := SumValues(genProduction);
    BaselineTotal();

    // [1] to [4]: the generation delta and the capital outlay, section by section
    var generationDelta;
    generationDelta, genCapitalCost, fleetEmissions :=
      TransportStage(inputs, genProduction, totalGen, genCapitalCost, fleetEmissions);
    ghost var d1, c1 := generationDelta, genCapitalCost;
    generationDelta, genCapitalCost := SolarStage(inputs, genProduction, generationDelta, genCapitalCost);
    ghost var d3, c2 := generationDelta, genCapitalCost;
    ghost var d5;
    generationDelta, genCapitalCost, d5 := WindStage(inputs, genProduction, totalGen, generationDelta, genCapitalCost);
    ghost var d6, c3 := generationDelta, genCapitalCost;
    generationDelta, genCapitalCost := InsulationStage(inputs, genProduction, generationDelta, genCapitalCost);
    StagesDelta(d, genProduction, d1, d1[Solar := d.solar], d3, d3[Wind := d.wind], d5, d6, generationDelta);
    FleetProjected(inputs, f0, fleetEmissions);
    CapitalProjected(o, c0, c1, c2, c3, genCapitalCost);

    // change the world
    ProductionProjected(d, generationDelta);
    genProduction := ApplyDelta(genProduction, generationDelta);
    FoldProjected(d, generationDelta, EmissionsOf);
    genEmissions := FoldAtRate(genEmissions, genProduction, generationDelta);
    FoldProjected(d, generationDelta, CostOf);
    genCost := FoldAtRate(genCost, genProduction, generationDelta);

    // data tidying
    CostProjected(d, genCost);
    genCost := DivideAll(genCost, 1000000.0);
    genCapitalCost := DivideAll(genCapitalCost, 1000000000.0);

    result := Scenario(genProduction, genEmissions, genCost, genCapitalCost, fleetEmissions);
  }

  // ---------------------------------------------------------------------------
  // Properties of a run
  // ---------------------------------------------------------------------------

  /** No change in demand moves no source. */
  lemma NoDemandNoDelta(d: Demand)
    requires d.ev == 0.0 && d.solar == 0.0 && d.wind == 0.0 && d.insulation == 0.0
    ensures FoldDefined(d)
    ensures forall k :: ProjectedDelta(d, k) == 0.0 && ProjectedGeneration(d, k) == GenerationOf(k)
  {
    forall k
      ensures ProjectedDelta(d, k) == 0.0 && FoldDefinedAt(d, k)
    {
      var change := d.ev - d.solar - 2.0 * d.wind - d.insulation;
      assert change == 0.0;
      assert GenerationOf(k) * change == 0.0;
      if k in PricedSources {
        PricedSourcesProduce(k);
      }
    }
  }

  /** Every priced source produces something in the baseline. */
  lemma PricedSourcesProduce(k: Key)
    requires k in PricedSources
    ensures GenerationOf(k) > 0.0
  {
  }

  /** With every lever at 0 the levers ask for no change in demand. */
  lemma NoLeversNoDemand(i: Inputs)
    requires i.carNumber == 0.0 && i.bicycleNumber == 0.0 && i.solarNumber == 0.0
    requires i.homeNumber == 0.0 && i.windfarmNumber == 0.0
    ensures var d := DemandOf(i); d.ev == 0.0 && d.solar == 0.0 && d.wind == 0.0 && d.insulation == 0.0
  {
    assert ElectricShare(i) == 0.0;
  }

  /** With every lever at 0 nothing is spent. */
  lemma NoLeversNoOutlay(i: Inputs)
    requires i.carNumber == 0.0 && i.bicycleNumber == 0.0 && i.solarNumber == 0.0
    requires i.homeNumber == 0.0 && i.windfarmNumber == 0.0
    ensures var o := OutlayOf(i); o.road == 0.0 && o.solar == 0.0 && o.wind == 0.0 && o.insulation == 0.0
  {
    assert ElectricShare(i) == 0.0;
  }

  /** With every lever at 0 the road fleet keeps its baseline emissions. */
  lemma NoLeversSameFleet(i: Inputs)
    requires i.carNumber == 0.0 && i.bicycleNumber == 0.0
    ensures RoadEmissions(i) == 12688.0
  {
    assert FleetReduction(i) == 1.0;
  }

  /** No change in demand leaves the production as it was. */
  lemma NoDemandKeepsProduction(d: Demand)
    requires d.ev == 0.0 && d.solar == 0.0 && d.wind == 0.0 && d.insulation == 0.0
    ensures ProjectedProduction(d) == BaselineProduction()
  {
    NoDemandNoDelta(d);
    var p := ProjectedProduction(d);
    assert p.vals.Keys == BaselineProduction().vals.Keys;
    forall k | k in p.vals
      ensures p.vals[k] == BaselineProduction().vals[k]
    {
    }
  }

  /** No change in demand leaves every mix folded over the production as it was. */
  lemma NoDemandKeepsMix(d: Demand, valueOf: Key -> real)
    requires d.ev == 0.0 && d.solar == 0.0 && d.wind == 0.0 && d.insulation == 0.0
    ensures FoldDefined(d)
    ensures ProjectedFold(d, valueOf) == PricedMix(valueOf)
  {
    NoDemandNoDelta(d);
    var f := ProjectedFold(d, valueOf);
    assert f.vals.Keys == PricedMix(valueOf).vals.Keys;
    forall k | k in f.vals
      ensures f.vals[k] == PricedMix(valueOf).vals[k]
    {
    }
  }

  /** No change in demand leaves the operating cost as it was, in $ millions. */
  lemma NoDemandKeepsCost(d: Demand)
    requires d.ev == 0.0 && d.solar == 0.0 && d.wind == 0.0 && d.insulation == 0.0
    ensures FoldDefined(d)
    ensures ProjectedCost(d) == Obj(PricedSources, map k | k in PricedSources :: CostOf(k) / 1000000.0)
  {
    NoDemandNoDelta(d);
    var c := ProjectedCost(d);
    var e := Obj(PricedSources, map k | k in PricedSources :: CostOf(k) / 1000000.0);
    assert c.vals.Keys == e.vals.Keys;
    forall k | k in c.vals
      ensures c.vals[k] == e.vals[k]
    {
    }
  }

  /** Spending nothing leaves every capital category at 0. */
  lemma NoOutlayNoCapital(o: Outlay)
    requires o.road == 0.0 && o.solar == 0.0 && o.wind == 0.0 && o.insulation == 0.0
    ensures ProjectedCapitalCost(o) == BaselineCapitalCost()
  {
    var c := ProjectedCapitalCost(o);
    assert c.vals.Keys == BaselineCapitalCost().vals.Keys;
    forall k | k in c.vals
      ensures c.vals[k] == BaselineCapitalCost().vals[k]
    {
    }
  }

  /** With every lever at 0 a run is defined: no priced source ends at zero production. */
  lemma NoChangeDefined(i: Inputs)
    requires i.carNumber == 0.0 && i.bicycleNumber == 0.0 && i.solarNumber == 0.0
    requires i.homeNumber == 0.0 && i.windfarmNumber == 0.0
    ensures FoldDefined(DemandOf(i))
  {
    NoLeversNoDemand(i);
    NoDemandNoDelta(DemandOf(i));
  }

  /** With every lever at 0 a run returns the baseline's production. */
  lemma NoChangeKeepsProduction(i: Inputs)
    requires i.carNumber == 0.0 && i.bicycleNumber == 0.0 && i.solarNumber == 0.0
    requires i.homeNumber == 0.0 && i.windfarmNumber == 0.0
    requires FoldDefined(DemandOf(i))
    ensures Projected(i).production == BaselineProduction()
  {
    NoLeversNoDemand(i);
    NoDemandKeepsProduction(DemandOf(i));
  }

  /** With every lever at 0 a run returns the baseline's emissions. */
  lemma NoChangeKeepsEmissions(i: Inputs)
    requires i.carNumber == 0.0 && i.bicycleNumber == 0.0 && i.solarNumber == 0.0
    requires i.homeNumber == 0.0 && i.windfarmNumber == 0.0
    requires FoldDefined(DemandOf(i))
    ensures Projected(i).emissions == BaselineEmissions()
  {
    NoLeversNoDemand(i);
    NoDemandKeepsMix(DemandOf(i), EmissionsOf);
  }

  /** With every lever at 0 a run returns the baseline's operating cost in $ millions. */
  lemma NoChangeKeepsCost(i: Inputs)
    requires i.carNumber == 0.0 && i.bicycleNumber == 0.0 && i.solarNumber == 0.0
    requires i.homeNumber == 0.0 && i.windfarmNumber == 0.0
    requires FoldDefined(DemandOf(i))
    ensures Projected(i).cost == Obj(PricedSources, map k | k in PricedSources :: CostOf(k) / 1000000.0)
  {
    NoLeversNoDemand(i);
    NoDemandKeepsCost(DemandOf(i));
  }

  /** With every lever at zero, a run spends no capital and leaves the road fleet as it is. */
  lemma NoChangeKeepsSpending(i: Inputs)
    requires i.carNumber == 0.0 && i.bicycleNumber == 0.0 && i.solarNumber == 0.0
    requires i.homeNumber == 0.0 && i.windfarmNumber == 0.0
    requires FoldDefined(DemandOf(i))
    ensures Projected(i).capitalCost == BaselineCapitalCost()
    ensures Projected(i).fleetEmissions == BaselineFleetEmissions()
  {
    NoLeversNoOutlay(i);
    NoLeversSameFleet(i);
    NoOutlayNoCapital(OutlayOf(i));
  }

  /**
   * The capital cost of a run, in $ billions, category by category: each category a lever
   * touches holds that lever's outlay, and the other sources stay at 0.
   */
  lemma CapitalByCategory(o: Outlay)
    ensures var c := ProjectedCapitalCost(o);
            && c.keys == CapitalCategories
            && c.vals[Road] == o.road / 1000000000.0
            && c.vals[Solar] == o.solar / 1000000000.0
            && c.vals[Wind] == o.wind / 1000000000.0
            && c.vals[Insulation] == o.insulation / 1000000000.0
            && c.vals[Hydro] == 0.0 && c.vals[Geothermal] == 0.0 && c.vals[Coal] == 0.0 && c.vals[Gas] == 0.0
  {
    assert CapitalOutlay(o, Hydro) == 0.0 && CapitalOutlay(o, Geothermal) == 0.0;
    assert CapitalOutlay(o, Coal) == 0.0 && CapitalOutlay(o, Gas) == 0.0;
  }

  /**
   * With the car and bicycle levers between 0 and 100 percent, the road fleet's emissions
   * stay between 0 and the baseline's 12688 kt.
   */
  lemma RoadEmissionsBounded(i: Inputs)
    requires 0.0 <= i.carNumber <= 100.0 && 0.0 <= i.bicycleNumber <= 100.0
    ensures 0.0 <= RoadEmissions(i) <= 12688.0
  {
    FractionProduct(1.0 - i.bicycleNumber / 100.0, 1.0 - i.carNumber / 100.0);
  }

  /**
   * More electric cars or more bicycles never raise the road fleet's emissions, with both
   * levers between 0 and 100 percent.
   */
  lemma RoadEmissionsMonotone(i: Inputs, j: Inputs)
    requires 0.0 <= i.carNumber <= j.carNumber <= 100.0
    requires 0.0 <= i.bicycleNumber <= j.bicycleNumber <= 100.0
    ensures RoadEmissions(j) <= RoadEmissions(i)
  {
    var a, b := 1.0 - i.bicycleNumber / 100.0, 1.0 - i.carNumber / 100.0;
    var a', b' := 1.0 - j.bicycleNumber / 100.0, 1.0 - j.carNumber / 100.0;
    assert 0.0 <= a' <= a && 0.0 <= b' <= b;
    ProductBelow(a', b', a, b);
  }

  /** `x' * y' <= x * y` when `0 <= x' <= x` and `0 <= y' <= y`. */
  lemma ProductBelow(x': real, y': real, x: real, y: real)
    requires 0.0 <= x' <= x && 0.0 <= y' <= y
    ensures x' * y' <= x * y
  {
    assert x' * y' <= x * y';
    assert x * y' <= x * y;
  }

  /** The product of two fractions is a fraction. */
  lemma FractionProduct(x: real, y: real)
    requires 0.0 <= x <= 1.0 && 0.0 <= y <= 1.0
    ensures 0.0 <= x * y <= 1.0
  {
    assert 0.0 <= x * y <= x;
  }

  /**
   * Over any production keys, the transport loop adds `share` times their production to an
   * empty delta.
   */
  lemma {:induction false} SpreadAdds(production: Obj, share: real, r: map<Key, real>, ks: seq<Key>)
    requires Spread(map[], production, share, r)
    requires forall k | k in ks :: k in production.vals
    ensures Withdrawn(map[], r, ks) == 0.0 - share * SumOver(ks, production.vals)
  {
    if ks != [] {
      var init, k := ks[..|ks| - 1], ks[|ks| - 1];
      assert SpreadAt(map[], production, share, r, k);
      SpreadAdds(production, share, r, init);
      assert share * (SumOver(init, production.vals) + production.vals[k])
          == share * SumOver(init, production.vals) + share * production.vals[k];
    }
  }

  /** The transport stage spreads exactly the electric cars' demand over the sources. */
  lemma TransportAddsEvDemand(production: Obj, ev: real, r: map<Key, real>)
    requires Valid(production) && Sum(production) != 0.0
    requires Spread(map[], production, ev / Sum(production), r)
    ensures Withdrawn(map[], r, production.keys) == 0.0 - ev
  {
    assert forall k | k in production.keys :: k in production.vals;
    SpreadAdds(production, ev / Sum(production), r, production.keys);
    DivTimes(ev, Sum(production));
  }

  /**
   * New wind farms are cut by Wind's own share twice: the second wind reduction is meant to
   * skip Wind but does not, so Wind ends below the farms' output whenever they produce and
   * insulation saves anything at all.
   */
  lemma WindCutsItself(d: Demand)
    requires d.wind > 0.0 && d.insulation >= 0.0
    ensures ProjectedDelta(d, Wind) < d.wind
    ensures ProjectedDelta(d, Wind) == d.wind * (1.0 - 2187.0 / TotalGeneration) - 2187.0 * d.insulation / TotalGeneration
  {
  }

  /** A source with no emissions, such as hydro or wind, still has none after a run. */
  lemma ZeroEmittersStayClean(d: Demand, k: Key)
    requires FoldDefined(d)
    requires k in PricedSources && EmissionsOf(k) == 0.0
    ensures k in ProjectedFold(d, EmissionsOf).vals && ProjectedFold(d, EmissionsOf).vals[k] == 0.0
  {
    assert FoldDefinedAt(d, k);
  }

  /**
   * An emitting source whose production grows emits more, and one whose production shrinks
   * (but stays positive) emits less, in proportion to its production.
   */
  lemma EmissionsFollowProduction(d: Demand, k: Key)
    requires FoldDefined(d)
    requires k in PricedSources && EmissionsOf(k) > 0.0 && ProjectedGeneration(d, k) > 0.0
    ensures ProjectedDelta(d, k) > 0.0 ==> ProjectedFold(d, EmissionsOf).vals[k] > EmissionsOf(k)
    ensures ProjectedDelta(d, k) < 0.0 ==> ProjectedFold(d, EmissionsOf).vals[k] < EmissionsOf(k)
  {
    assert FoldDefinedAt(d, k);
    FoldedMoves(EmissionsOf(k), ProjectedGeneration(d, k), ProjectedDelta(d, k));
  }

  /** `x + dk * (x / p)` moves away from a positive `x` in the direction of `dk`. */
  lemma FoldedMoves(x: real, p: real, dk: real)
    requires x > 0.0 && p > 0.0
    ensures dk > 0.0 ==> Folded(x, p, dk) > x
    ensures dk < 0.0 ==> Folded(x, p, dk) < x
  {
    assert x / p > 0.0;
  }

}
