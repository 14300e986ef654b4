# powerslide — a verified model of the scenario engine and chart helpers

powerslide is a small web page with five sliders: electric cars, bicycles, rooftop solar,
insulated homes and new wind farms. Moving a slider reruns a "what-if" calculation over New
Zealand's 2013/2014 electricity generation. The page then redraws stacked bars for production
(GWh), emissions (kt CO2-e), operating cost and capital investment.

This Dafny project models the three parts of the repository that compute anything:

- `Engine` (`engine.dfy`) is the current engine of `js/src/engine.js`.
  - `GetBaseline` builds the fixed baseline.
  - `ReduceDemand` spreads a change in demand over the generation sources. Each source's share follows its production, and listed exceptions are skipped.
  - `ShockingUpdate` runs the transport, solar, wind and insulation stages in source order. Each stage writes into one generation delta. The run then folds the delta into production, emissions and cost, and converts cost to millions and capital to billions.
  - The method is proved equal to `Projected`, a closed form of the whole run that is written independently of the stages. The properties of a run are proved about that closed form.
- `LegacyEngine` (`legacy_engine.dfy`) is the earlier engine of `js/engine.js`.
  - Only the car and solar levers count. Their effect becomes one scale factor.
  - The factor multiplies production and cost once and emissions twice. Solar is then appended unscaled.
- `Chart` (`chart.dfy`) is the chart helpers of `js/src/chart.js`.
  - `PreprocessData` builds the bar segments.
  - `UpdateTotal` gives the value shown above a bar.
  - `AssignColors` gives the segment colours.
- `Objects` (`objects.dfy`) models a JavaScript object of numbers.
  - Keys are kept in the order `for…in` visits them, which is insertion order.
  - `o[k] = v` replaces a value in place or appends a new key.
- `Levers` (`objects.dfy`) holds the five slider values.
- `JsNumbers` (`js_numbers.dfy`) models how JavaScript converts text to a number when `!=` compares a number with a string.

The source's loops are modelled as Dafny loops with invariants: the `for…in` loops that sum, spread, reduce, fold, scale and convert, and the three loops of `preprocessData`. The page's objects are values here, reassigned after each step.

The code does some things its own comments do not lead one to expect. The model follows the code:

- Line 117 of `js/src/engine.js` assigns the new wind output to Wind's delta. This drops the transport and solar terms Wind had collected (`Engine.ProjectedDelta`).
- Line 131 is meant to skip Wind in the second wind reduction. It compares a production number with the text `'Wind'`. That text converts to NaN, so the test is true for every number (`JsNumbers.EveryNumberDiffersFromWind`). Every source is reduced a second time, Wind included (`Engine.ReduceForNewWind`, `Engine.WindCutsItself`).
- The emission and cost rates in the fold divide by the production after it has been moved, not by the baseline production (`Engine.FoldAtRate`).
- `reduceDemand` divides by the whole production, exempt sources included. So the amount withdrawn falls short of the reduction when an exempt source produces anything, as Wind does in the wind stage (`Engine.ReduceDemandFallsShort`).

## Model

| member | source | states |
|---|---|---|
| Engine.GetBaseline | js/src/engine.js:239-298 | the baseline lists the six generation sources in production, the five priced sources in emissions and cost, the capital categories at 0, Road's fleet emissions of 12688 kt, and a production total of 41227 GWh |
| Engine.BaselineTotal | js/src/engine.js:245-253 | the baseline production adds up to 41227 GWh, so every `total_gen` division is by a non-zero number |
| Engine.BaselineProduction | js/src/engine.js:246-253 | the baseline production object is well formed: no key twice, every key listed holds a value |
| Engine.BaselineCapitalCost | js/src/engine.js:274-283 | the baseline capital-cost object is well formed |
| Engine.BaselineFleetEmissions | js/src/engine.js:286-288 | the baseline fleet object is well formed |
| Engine.PricedMix | js/src/engine.js:256-271 | the emissions and cost objects list the five priced sources, once each, all with a value |
| Objects.SumValues | js/src/engine.js:32-35 | the summing `for…in` loop returns the sum of every value of the object, in key order |
| Objects.Put | js/src/engine.js:60 | `o[k] = v` keeps an existing key in its place and appends a new key, and only `k` changes |
| Engine.ReduceDemand | js/src/engine.js:306-329 | every production key outside the exceptions loses `production[k] * reduction / total`, and a missing key starts from 0; exempt keys and keys not in the production keep their delta; no other key appears |
| Engine.ReducedValue | js/src/engine.js:316-325 | the delta a reallocation leaves a key that already had one: unchanged when the key is exempt, reduced by its share otherwise |
| Engine.WithdrawnOver | js/src/engine.js:315-326 | one reallocation withdraws the share times the unexempt production, summed over any production keys |
| Engine.ReduceDemandConserves | js/src/engine.js:309-326 | when the exempt sources produce nothing, one call withdraws exactly the reduction asked for |
| Engine.ReduceDemandFallsShort | js/src/engine.js:309-326 | when the exempt sources produce part of the total, one call withdraws less than a positive reduction |
| Engine.BaselineUnexemptNone | js/src/engine.js:157-162 | with no exceptions the whole 41227 GWh is in play |
| Engine.InsulationConserves | js/src/engine.js:153-162 | the insulation stage, reducing the baseline with no exceptions, withdraws exactly the savings |
| Engine.BaselineUnexemptSolar | js/src/engine.js:97-102 | exempting Solar, which produces nothing, keeps all 41227 GWh in play |
| Engine.SolarConserves | js/src/engine.js:91-102 | the solar stage, reducing the baseline with Solar exempt, withdraws exactly the solar output |
| Engine.BaselineUnexemptSolarWind | js/src/engine.js:122-127 | exempting Solar and Wind leaves 39040 GWh in play |
| Engine.WindFallsShort | js/src/engine.js:122-127 | the first wind reduction, with Solar and Wind exempt, withdraws less than a positive wind output |
| Engine.SpreadIncrease | js/src/engine.js:73-76 | after the transport loop, every production key's delta is its production times the increase; any other key keeps its delta |
| Engine.TransportAddsEvDemand | js/src/engine.js:67-76 | the transport stage adds exactly the electric cars' demand across the sources |
| Engine.SpreadAdds | js/src/engine.js:74-76 | the transport loop adds the increase times the production, summed over any production keys |
| JsNumbers.WindIsNaN | js/src/engine.js:131 | the text `'Wind'` converts to NaN |
| JsNumbers.EveryNumberDiffersFromWind | js/src/engine.js:131 | `gen_production[key] != 'Wind'` is true whatever number the production holds |
| JsNumbers.LooseEqualsExactly | js/src/engine.js:131 | a number and a string are loosely equal exactly when the string converts to that finite number |
| JsNumbers.PaddingIgnored | js/src/engine.js:131 | white space and line terminators around the text never change the number it converts to |
| JsNumbers.NotNumericStart | js/src/engine.js:131 | text whose first non-space character cannot start a numeric literal converts to NaN |
| JsNumbers.NoBreakSpaceTrimmed | js/src/engine.js:131 | `'1'` followed by a no-break space converts to 1, so `1 != '1 '` is false |
| JsNumbers.FormFeedIsZero | js/src/engine.js:131 | text made only of a form feed converts to 0 |
| JsNumbers.HexLiteral | js/src/engine.js:131 | the hexadecimal text `'0x1F'` converts to 31 |
| JsNumbers.NegativeInfinity | js/src/engine.js:131 | `'-Infinity'` converts to negative infinity, which differs from every finite number |
| JsNumbers.TrimStart | js/src/engine.js:131 | the text left after dropping leading white space is empty or starts with a non-space character |
| JsNumbers.TrimEnd | js/src/engine.js:131 | dropping trailing white space leaves a prefix that is empty or ends with a non-space character |
| Engine.ReduceForNewWind | js/src/engine.js:129-139 | the second wind loop takes its share off every production key, Wind included, exactly as a reallocation with no exceptions would |
| Engine.WindSurvives | js/src/engine.js:117-127 | the new wind output survives the first wind reduction, because that reduction exempts Wind |
| Engine.TransportStage | js/src/engine.js:44-79 | the fleet keeps `(1 - bikes/100)(1 - cars/100)` of its emissions, the EV demand is spread over the sources at the rate of each source's production, and Road capital is $40000 per electric car |
| Engine.SolarStage | js/src/engine.js:85-102 | Solar's delta becomes the houses' output, which is then taken off the non-solar sources at their production rate; Solar capital is $12495 per house |
| Engine.WindStage | js/src/engine.js:108-139 | Wind's delta becomes the farms' output; that output is taken once off the sources other than Solar and Wind, then again off every source; Wind capital is $521344918 per farm |
| Engine.InsulationStage | js/src/engine.js:145-162 | the savings are taken off every source at its production rate; Insulation capital is $7630 per home |
| Engine.StageAt | js/src/engine.js:73-162 | one source's delta after the four stages, built from the contract of each stage's loop |
| Engine.StagesDelta | js/src/engine.js:73-162 | after the four stages, every source's delta is the closed form `ProjectedDelta`: Solar exactly its output; Wind the farms' output less Wind's shares of the farms and of the insulation; every other source its share of `ev - solar - 2 wind - insulation` |
| Engine.ApplyDelta | js/src/engine.js:180-182 | the production loop moves each source by its delta and keeps the key order |
| Engine.FoldAtRate | js/src/engine.js:186-203 | each emissions or cost entry gains the delta times its rate, which is the entry over the already-moved production when the entry is positive and 0 otherwise |
| Engine.DivideAll | js/src/engine.js:210-218 | the conversion loops divide every value by the unit and keep the key order |
| Engine.ProductionProjected | js/src/engine.js:180-182 | moving the baseline production by the staged delta gives the closed-form production |
| Engine.FoldProjected | js/src/engine.js:186-203 | the fold of the staged delta is defined and equals the closed-form fold |
| Engine.CostProjected | js/src/engine.js:197-213 | the folded cost in millions equals the closed-form cost |
| Engine.CapitalProjected | js/src/engine.js:79-151 | the four capital assignments followed by the conversion to billions give the closed-form capital cost |
| Engine.CapitalSet | js/src/engine.js:79-151 | after the four assignments, each category holds its outlay |
| Engine.CapitalInBillions | js/src/engine.js:216-218 | converting the outlays to billions gives the closed-form capital cost |
| Engine.FleetProjected | js/src/engine.js:54-60 | the fleet object after transport holds the closed-form road emissions |
| Engine.ShockingUpdate | js/src/engine.js:4-236 | a run from the baseline returns exactly the closed form `Projected` of its levers, whenever no priced source ends at zero production |
| Engine.CapitalByCategory | js/src/engine.js:79-151 | the capital cost in billions holds, for Road, Solar, Wind and Insulation, the outlay of the lever that touches it (`OutlayOf`: $40000 per electric car, $12495 per solar house, $521344918 per wind farm, $7630 per home); Hydro, Geothermal, Coal and Gas stay 0 |
| Engine.RoadEmissionsBounded | js/src/engine.js:54-60 | with both levers between 0 and 100, road emissions stay between 0 and the baseline 12688 kt |
| Engine.RoadEmissionsMonotone | js/src/engine.js:54-60 | with both levers between 0 and 100, more cars or more bicycles never raise road emissions |
| Engine.WindCutsItself | js/src/engine.js:117-139 | new wind farms end with less than their output: Wind keeps only `W (1 - 2187/41227) - 2187 ins/41227` |
| Engine.ZeroEmittersStayClean | js/src/engine.js:186-193 | a source with no emissions, such as Hydro or Wind, still has none after a run |
| Engine.EmissionsFollowProduction | js/src/engine.js:186-193 | an emitting source whose production rises emits more, and one whose production falls but stays positive emits less |
| Engine.FoldedMoves | js/src/engine.js:188-192 | the folded value of a positive entry moves in the direction of the delta |
| Engine.NoDemandNoDelta | js/src/engine.js:73-162 | with no change in demand, every source's delta is 0 and the fold is defined |
| Engine.PricedSourcesProduce | js/src/engine.js:246-253 | every source with an emissions or cost entry produces something in the baseline |
| Engine.NoLeversNoDemand | js/src/engine.js:58-155 | with every lever at 0, the levers ask for no change in demand |
| Engine.NoLeversNoOutlay | js/src/engine.js:79-151 | with every lever at 0, nothing is spent |
| Engine.NoLeversSameFleet | js/src/engine.js:54-60 | with no cars and no bicycles, the road fleet keeps its 12688 kt |
| Engine.NoDemandKeepsProduction | js/src/engine.js:180-182 | with no change in demand, production is the baseline |
| Engine.NoDemandKeepsMix | js/src/engine.js:186-203 | with no change in demand, a folded mix is the baseline mix |
| Engine.NoDemandKeepsCost | js/src/engine.js:197-213 | with no change in demand, cost is the baseline in millions |
| Engine.NoOutlayNoCapital | js/src/engine.js:216-218 | with nothing spent, every capital category is 0 |
| Engine.NoChangeDefined | js/src/engine.js:180-203 | with every lever at 0, the fold divides by no zero |
| Engine.NoChangeKeepsProduction | js/src/engine.js:180-182 | with every lever at 0, a run returns the baseline production |
| Engine.NoChangeKeepsEmissions | js/src/engine.js:186-193 | with every lever at 0, a run returns the baseline emissions |
| Engine.NoChangeKeepsCost | js/src/engine.js:197-213 | with every lever at 0, a run returns the baseline cost in millions |
| Engine.NoChangeKeepsSpending | js/src/engine.js:54-60 | with every lever at 0, every capital category is 0 and the road fleet keeps its baseline emissions |
| LegacyEngine.GetBaseline | js/engine.js:108-148 | the earlier baseline lists the five priced sources in production, emissions and cost, has no Solar key and no capital cost |
| LegacyEngine.BaselineTotal | js/engine.js:42-46 | the earlier baseline production adds up to 41227 GWh |
| LegacyEngine.ScaledBy | js/engine.js:70-90 | scaling an object keeps it well formed |
| LegacyEngine.SumScaled | js/engine.js:75-77 | scaling an object by the factor scales its sum by the factor |
| LegacyEngine.SumOverScaled | js/engine.js:75-77 | scaling values scales their sum over any keys |
| LegacyEngine.ScaleAll | js/engine.js:70-90 | each scaling `for…in` loop multiplies every value by the factor and keeps the key order |
| LegacyEngine.ScaledProductionSources | js/engine.js:75-80 | the closed-form production lists the six generation sources once each, Solar last with the unscaled solar output, and every other source at its scaled value |
| LegacyEngine.SolarAppended | js/engine.js:80 | the scaled production has no Solar key, so assigning Solar appends it last |
| LegacyEngine.ProductionScaled | js/engine.js:75-80 | the production is each baseline source times the factor, followed by Solar at exactly the houses' output, unscaled |
| LegacyEngine.MixScaledOnce | js/engine.js:88-90 | the cost is each baseline cost times the factor |
| LegacyEngine.MixScaledTwice | js/engine.js:70-72 | the emissions are each baseline emission times the factor, twice |
| LegacyEngine.FleetConverted | js/engine.js:27-30 | road emissions are `12688 (1 - cars/100)`; bicycles play no part |
| LegacyEngine.ShockingUpdate | js/engine.js:4-105 | a run returns exactly the closed form `Projected`: factor `1 + ev/41227 - solar/41227`, production and cost scaled once, emissions twice, Solar appended unscaled |
| LegacyEngine.NoChangeUnitFactor | js/engine.js:48-68 | with no cars and no solar houses, the factor is exactly 1 and there is no solar output |
| LegacyEngine.UnitScaleKeepsMix | js/engine.js:70-90 | scaling by 1, once or twice, leaves a mix unchanged |
| LegacyEngine.NoChangeKeepsProduction | js/engine.js:75-80 | with no cars and no solar houses, production is the baseline with Solar 0, the current engine's baseline production |
| LegacyEngine.NoChangeKeepsEmissions | js/engine.js:70-85 | with no cars and no solar houses, emissions are the baseline |
| LegacyEngine.NoChangeKeepsCost | js/engine.js:88-90 | with no cars and no solar houses, cost is the baseline |
| LegacyEngine.NoCarsKeepFleet | js/engine.js:27-30 | with no cars, the road fleet keeps its 12688 kt, whatever the other levers |
| LegacyEngine.SumOverAgree | js/engine.js:43-46 | two objects that agree on some keys have the same sum over them |
| LegacyEngine.ProductionSum | js/engine.js:75-80 | total production after a run is the scaled baseline total plus the solar output |
| LegacyEngine.TotalProduction | js/engine.js:37-80 | total production after a run is 41227 GWh plus the EV demand, whatever the solar lever: solar output taken off the other sources is added back as Solar |
| LegacyEngine.EmissionsNonNegative | js/engine.js:70-85 | emissions never go negative, even when the factor does, because the factor is applied twice |
| LegacyEngine.ScaledTwiceNonNegative | js/engine.js:70-85 | a non-negative value scaled twice by the same factor stays non-negative |
| LegacyEngine.Intensity | js/engine.js:70-85 | emissions per GWh after scaling are the baseline ratio times the factor |
| LegacyEngine.IntensityOf | js/engine.js:70-85 | for any baseline, a source's emissions per GWh after a run are its baseline intensity times the factor |
| LegacyEngine.ZeroEmittersStayClean | js/engine.js:70-85 | a source with no emissions still has none after a run |
| Chart.RoundNear | js/src/chart.js:21 | `Math.round` gives a whole number within a half of its argument |
| Chart.RoundMonotone | js/src/chart.js:21 | `Math.round` keeps order |
| Chart.DataValuesAt | js/src/chart.js:6-11 | the pushed values are the object's values, one per key, in key order |
| Chart.PreprocessData | js/src/chart.js:3-33 | the three loops return `Prepared`: a leading 1, the data values in key order, a positive delta as padding, non-zero entries as rounded percentages of a non-zero total, negatives before the last cleared |
| Chart.PreparedShape | js/src/chart.js:4-16 | the length is 1 plus the number of keys, plus 1 when delta is positive, and the first entry is 1 |
| Chart.PreparedEntry | js/src/chart.js:6-30 | entry `j + 1` comes from the `j`-th key's value: as a percentage when it and the total are non-zero, cleared when negative and not last |
| Chart.PreparedKeepsZeros | js/src/chart.js:19-23 | a zero value stays 0 |
| Chart.PreparedWithoutTotal | js/src/chart.js:19-30 | when the values add up to 0, entries keep their raw values, except that a negative before the last is cleared |
| Chart.PreparedInteriorNonNegative | js/src/chart.js:25-30 | every entry between the leading 1 and the last is non-negative |
| Chart.PreparedPadding | js/src/chart.js:14-30 | the padding entry is never cleared: it is the delta's rounded percentage of the total |
| Chart.PreparedPercentages | js/src/chart.js:19-23 | with no negative values and a positive total, every data entry is a percentage between 0 and 100 |
| Chart.ValueAtMostSum | js/src/chart.js:6-11 | a non-negative value is at most the sum of non-negative values it is part of |
| Chart.SumOverNonNegative | js/src/chart.js:6-11 | a sum of non-negative values is non-negative |
| Chart.PercentInRange | js/src/chart.js:21 | a part of a positive total, as a rounded percentage, lies between 0 and 100 |
| Chart.UpdateTotal | js/src/chart.js:35-49 | the loop, rounding and clamp return `ShownTotal`, the rounded sum clamped at 0 |
| Chart.ShownTotalMeaning | js/src/chart.js:36-45 | the shown total is a whole number that is never negative; it is 0 exactly when the values add up to less than a half, and otherwise within a half of their sum |
| Chart.ProductionColours | js/src/chart.js:63-70 | the six `gwh` colours follow the production's keys in order |
| Chart.CostColours | js/src/chart.js:72-78 | the five `cost` colours follow the operating cost's keys in order |
| Chart.InvestmentColours | js/src/chart.js:80-89 | the eight `investment` colours follow the capital categories in order |
| Chart.EmissionsColours | js/src/chart.js:55-61 | the four `co2` colours are those of Geothermal, Coal, Gas and Road |
| Chart.AssignColors | js/src/chart.js:51-98 | the colours are the chart's palette, with none for an unknown chart, followed by `'none'` exactly when delta is positive |
| Chart.ColourPerSegment | js/src/chart.js:134-135 | when the data has one key per palette colour, there is exactly one colour per segment after the leading 1 |

## Left out

- `js/src/app.js` is not part of this model. It reads the sliders, listens for `DOMContentLoaded` and dispatches the charts. The sliders hand the engine strings, which the engine's arithmetic converts to numbers, so the levers are `real` here (`Levers.Inputs`).
- `updateGraph` and the page write in `updateTotal` (`js/src/chart.js:46`, `100-177`) are D3/SVG rendering and DOM access. Only the value `updateTotal` returns is modelled.
- Console tracing and the `'debug' in inputs` flag are logging only and are not modelled.
- The spreadsheet linked at the top of both engines cannot be seen and is not modelled.
- Numbers are exact reals, so IEEE-754 rounding, NaN and Infinity are not modelled. Each division becomes a precondition that its divisor is non-zero:
  - `Sum(production) != 0` on `Engine.ReduceDemand`, `Engine.SolarStage` and `Engine.InsulationStage`.
  - `totalGen != 0` on `Engine.TransportStage` and `Engine.WindStage`.
  - `FoldDefined` on `Engine.ShockingUpdate`: no source with a cost entry ends at zero production.
  - On `Engine.FoldAtRate`: every source the moved production lists with a positive rate has a non-zero production.
  - `divisor != 0` on `Engine.DivideAll`.
- `JsNumbers.ToNumber` gives a numeric literal its exact decimal value. It does not round to the nearest double, and a large exponent does not overflow to Infinity. Neither matters for `'Wind'`, the only text the engine compares with.
- The source's objects are updated in place; here they are values reassigned after each step. No object is shared between two live names in the modelled code, so no aliasing is lost.
- Property names are an enumeration (`Objects.Key`) rather than arbitrary strings, because the engines and charts only ever use these eight names.
- `shockingUpdate` is one long function in the source. The model splits its four sections into stage methods (`Engine.TransportStage` and the others), which run the same statements in the same order.
- The implicit globals `electric_pct`, `ev_power_reqts` and `power_savings_from_insul` of `js/src/engine.js`, and `ev_power_reqts` of `js/engine.js` (lines 37-52), are local variables here. Each engine writes them before it reads them within one synchronous call, so no value carries over from one call to the next, and no other file reads them.
