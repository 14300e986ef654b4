/**
 * The chart helpers of js/src/chart.js: the bar segments `preprocessData` derives from one
 * of the engine's mappings, the total `updateTotal` shows above a bar, and the colours
 * `assignColors` gives the segments.
 */
module Chart {
  import opened Objects
  import Engine

  /** `Math.round`: the nearest integer, halves rounded up. */
  function Round(x: real): real
  {
    (x + 0.5).Floor as real
  }

  /** `Math.round(x)` is an integer within half of `x`. */
  lemma RoundNear(x: real)
    ensures x - 0.5 < Round(x) <= x + 0.5
    ensures Round(x) == Round(x).Floor as real
  {
  }

  /** `Math.round` keeps order. */
  lemma RoundMonotone(x: real, y: real)
    requires x <= y
    ensures Round(x) <= Round(y)
  {
    assert (x + 0.5).Floor <= (y + 0.5).Floor;
  }

  // ---------------------------------------------------------------------------
  // preprocessData
  // ---------------------------------------------------------------------------

  /** `values.push(data[k])` over `ks`, from the first key to the last. */
  function DataValues(ks: seq<Key>, m: map<Key, real>): seq<real>
    requires forall k | k in ks :: k in m
  {
    if ks == [] then [] else DataValues(ks[..|ks| - 1], m) + [m[ks[|ks| - 1]]]
  }

  /** One value per key, in key order. */
  lemma {:induction false} DataValuesAt(ks: seq<Key>, m: map<Key, real>)
    requires forall k | k in ks :: k in m
    ensures |DataValues(ks, m)| == |ks|
    ensures forall j | 0 <= j < |ks| :: DataValues(ks, m)[j] == m[ks[j]]
  {
    if ks != [] {
      DataValuesAt(ks[..|ks| - 1], m);
    }
  }

  /** The array before any percentages: a leading 1, the data values, and a positive `delta`. */
  function Raw(data: Obj, delta: real): seq<real>
    requires Valid(data)
  {
    [1.0] + DataValues(data.keys, data.vals) + (if delta > 0.0 then [delta] else [])
  }

  /** A non-zero value as a rounded percentage of a non-zero total; otherwise unchanged. */
  function PercentOf(v: real, total: real): real
  {
    if v != 0.0 && total != 0.0 then Round(v / total * 100.0) else v
  }

  /** A negative value at a position before the last of `n` becomes 0. */
  function ClampedAt(i: int, n: int, x: real): real
  {
    if i < n - 1 && x < 0.0 then 0.0 else x
  }

  /** What `preprocessData(data, delta)` returns. */
  function Prepared(data: Obj, delta: real): seq<real>
    requires Valid(data)
  {
    var raw := Raw(data, delta);
    var total := Sum(data);
    seq(|raw|, i requires 0 <= i < |raw| => if i == 0 then raw[0] else ClampedAt(i, |raw|, PercentOf(raw[i], total)))
  }

  /**
   * preprocessData: collect the values behind a leading 1 while summing them, pad with a
   * positive `delta`, turn every non-zero entry into a rounded percentage of the total, and
   * clear negative entries except the last.
   */
  method PreprocessData(data: Obj, delta: real) returns (values: seq<real>)
    requires Valid(data)
    ensures values == Prepared(data, delta)
  {
    values := [1.0];
    var total := 0.0;
    for n := 0 to |data.keys|
      invariant total == SumOver(data.keys[..n], data.vals)
      invariant values == [1.0] + DataValues(data.keys[..n], data.vals)
    {
      var k := data.keys[n];
      assert data.keys[..n + 1][..n] == data.keys[..n];
      total := total + data.vals[k];
      values := values + [data.vals[k]];
    }
    assert data.keys[..|data.keys|] == data.keys;
    if delta > 0.0 {
      values := values + [delta];
    }
    ghost var raw := values;
    assert raw == Raw(data, delta);

    // Percentages.
    var i := 1;
    while i < |values|
      invariant 1 <= i <= |values| == |raw|
      invariant values[0] == 1.0
      invariant forall j | 1 <= j < |values| :: values[j] == if j < i then PercentOf(raw[j], total) else raw[j]
    {
      if values[i] != 0.0 && total != 0.0 {
        values := values[i := Round(values[i] / total * 100.0)];
      }
      i := i + 1;
    }

    // No negative segments, except possibly the last.
    i := 1;
    while i < |values| - 1
      invariant 1 <= i <= |values| == |raw|
      invariant values[0] == 1.0
      invariant forall j | 1 <= j < |values| ::
        values[j] == if j < i then ClampedAt(j, |raw|, PercentOf(raw[j], total)) else PercentOf(raw[j], total)
    {
      if values[i] < 0.0 {
        values := values[i := 0.0];
      }
      i := i + 1;
    }
  }

  /**
   * The array has a leading 1, one entry per key of `data`, and one more when `delta` is
   * positive.
   */
  lemma PreparedShape(data: Obj, delta: real)
    requires Valid(data)
    ensures |Prepared(data, delta)| == 1 + |data.keys| + (if delta > 0.0 then 1 else 0)
    ensures Prepared(data, delta)[0] == 1.0
  {
    DataValuesAt(data.keys, data.vals);
  }

  /**
   * Entry `j + 1` is the value of the `j`-th key in iteration order, as a rounded percentage
   * of the total when both are non-zero, and cleared to 0 when negative unless it is last.
   */
  lemma PreparedEntry(data: Obj, delta: real, j: int)
    requires Valid(data) && 0 <= j < |data.keys|
    ensures j + 1 < |Prepared(data, delta)|
    ensures Prepared(data, delta)[j + 1]
         == ClampedAt(j + 1, |Prepared(data, delta)|, PercentOf(data.vals[data.keys[j]], Sum(data)))
  {
    DataValuesAt(data.keys, data.vals);
  }

  /** Entry `j + 1` comes from the value of the `j`-th key: a zero there stays 0. */
  lemma PreparedKeepsZeros(data: Obj, delta: real, j: int)
    requires Valid(data) && 0 <= j < |data.keys| && data.vals[data.keys[j]] == 0.0
    ensures j + 1 < |Prepared(data, delta)| && Prepared(data, delta)[j + 1] == 0.0
  {
    DataValuesAt(data.keys, data.vals);
    assert Raw(data, delta)[j + 1] == data.vals[data.keys[j]];
  }

  /**
   * When the values add up to 0 nothing becomes a percentage: each data entry keeps its
   * value, a negative one before the last cleared to 0.
   */
  lemma PreparedWithoutTotal(data: Obj, delta: real, j: int)
    requires Valid(data) && Sum(data) == 0.0 && 0 <= j < |data.keys|
    ensures j + 1 < |Prepared(data, delta)|
    ensures var v := data.vals[data.keys[j]];
            Prepared(data, delta)[j + 1] == if v < 0.0 && j + 2 < |Prepared(data, delta)| then 0.0 else v
  {
    DataValuesAt(data.keys, data.vals);
    assert Raw(data, delta)[j + 1] == data.vals[data.keys[j]];
  }

  /** Every entry between the leading 1 and the last is non-negative. */
  lemma PreparedInteriorNonNegative(data: Obj, delta: real, i: int)
    requires Valid(data) && 1 <= i < |Prepared(data, delta)| - 1
    ensures Prepared(data, delta)[i] >= 0.0
  {
  }

  /**
   * The last entry is never cleared: a positive `delta`, when there is one, is its rounded
   * percentage of a non-zero total and can be negative when the total is.
   */
  lemma PreparedPadding(data: Obj, delta: real)
    requires Valid(data) && delta > 0.0 && Sum(data) != 0.0
    ensures var r := Prepared(data, delta);
            r[|r| - 1] == Round(delta / Sum(data) * 100.0)
  {
    DataValuesAt(data.keys, data.vals);
  }

  /** A value of `ks` is at most their sum when none is negative. */
  lemma {:induction false} ValueAtMostSum(ks: seq<Key>, m: map<Key, real>, k: Key)
    requires forall x | x in ks :: x in m && m[x] >= 0.0
    requires k in ks
    ensures 0.0 <= m[k] <= SumOver(ks, m)
  {
    var init := ks[..|ks| - 1];
    if k in init {
      ValueAtMostSum(init, m, k);
      SumOverNonNegative(init, m);
    } else {
      SumOverNonNegative(init, m);
    }
  }

  /** A sum of non-negative values is non-negative. */
  lemma {:induction false} SumOverNonNegative(ks: seq<Key>, m: map<Key, real>)
    requires forall x | x in ks :: x in m && m[x] >= 0.0
    ensures SumOver(ks, m) >= 0.0
  {
    if ks != [] {
      SumOverNonNegative(ks[..|ks| - 1], m);
    }
  }

  /** A share of a total it is part of, as a rounded percentage, lies between 0 and 100. */
  lemma PercentInRange(v: real, total: real)
    requires 0.0 <= v <= total && total > 0.0
    ensures 0.0 <= PercentOf(v, total) <= 100.0
  {
    assert 0.0 <= v / total <= 1.0;
    RoundMonotone(0.0, v / total * 100.0);
    RoundMonotone(v / total * 100.0, 100.0);
  }

  /** With no negative value and a positive total, every data entry is a percentage 0..100. */
  lemma PreparedPercentages(data: Obj, delta: real, j: int)
    requires Valid(data) && Sum(data) > 0.0 && 0 <= j < |data.keys|
    requires forall k | k in data.keys :: data.vals[k] >= 0.0
    ensures j + 1 < |Prepared(data, delta)|
    ensures 0.0 <= Prepared(data, delta)[j + 1] <= 100.0
  {
    DataValuesAt(data.keys, data.vals);
    var v := data.vals[data.keys[j]];
    assert Raw(data, delta)[j + 1] == v;
    ValueAtMostSum(data.keys, data.vals, data.keys[j]);
    PercentInRange(v, Sum(data));
  }

  // ---------------------------------------------------------------------------
  // updateTotal
  // ---------------------------------------------------------------------------

  /** The total shown above a bar: the rounded sum of the values, never below 0. */
  function ShownTotal(data: Obj): real
    requires Valid(data)
  {
    var r := Round(Sum(data));
    if r < 0.0 then 0.0 else r
  }

  /** The value `updateTotal` computes and returns (its write to the page is not modelled). */
  method UpdateTotal(data: Obj) returns (total: real)
    requires Valid(data)
    ensures total == ShownTotal(data)
  {
    total := SumValues(data);
    total := Round(total);
    if total < 0.0 {
      total := 0.0;
    }
  }

  /**
   * The shown total is a whole number, never negative, 0 exactly when the values add up to
   * less than a half, and otherwise within a half of their sum.
   */
  lemma ShownTotalMeaning(data: Obj)
    requires Valid(data)
    ensures ShownTotal(data) >= 0.0 && ShownTotal(data) == ShownTotal(data).Floor as real
    ensures ShownTotal(data) == 0.0 <==> Sum(data) < 0.5
    ensures Sum(data) >= 0.5 ==> Sum(data) - 0.5 < ShownTotal(data) <= Sum(data) + 0.5
  {
    RoundNear(Sum(data));
  }

  // ---------------------------------------------------------------------------
  // assignColors
  // ---------------------------------------------------------------------------

  /** The legend colour of each property the charts show. */
  function ColourOf(k: Key): string
  {
    match k
    case Hydro => "#6d9eeb"
    case Geothermal => "#ff9900"
    case Wind => "#c9daf8"
    case Coal => "#999999"
    case Insulation => "#ffb9b9"
    case Gas => "#f3f3f3"
    case Solar => "#ffd966"
    case Road => "#34495e"
  }

  /** `colours` gives the `j`-th key of `ks` its legend colour, for every `j`. */
  ghost predicate FollowsKeys(colours: seq<string>, ks: seq<Key>)
  {
    |colours| == |ks| && forall j | 0 <= j < |ks| :: colours[j] == ColourOf(ks[j])
  }

  /** The colours each chart's `switch` pushes, one per segment; none for an unknown chart. */
  function Palette(prefix: string): seq<string>
  {
    if prefix == "co2" then ["#ff9900", "#999999", "#f3f3f3", "#34495e"]
    else if prefix == "gwh" then ["#6d9eeb", "#ff9900", "#c9daf8", "#999999", "#f3f3f3", "#ffd966"]
    else if prefix == "cost" then ["#6d9eeb", "#ff9900", "#c9daf8", "#999999", "#f3f3f3"]
    else if prefix == "investment" then
      ["#6d9eeb", "#ff9900", "#c9daf8", "#999999", "#ffb9b9", "#f3f3f3", "#ffd966", "#34495e"]
    else []
  }

  // The order matters: each chart's colours follow the keys of the mapping it draws.

  /** The `gwh` colours follow the production's keys. */
  lemma ProductionColours()
    ensures FollowsKeys(Palette("gwh"), Engine.GenerationSources)
  {
  }

  /** The `cost` colours follow the operating cost's keys. */
  lemma CostColours()
    ensures FollowsKeys(Palette("cost"), Engine.PricedSources)
  {
  }

  /** The `investment` colours follow the capital cost's categories. */
  lemma InvestmentColours()
    ensures FollowsKeys(Palette("investment"), Engine.CapitalCategories)
  {
  }

  /** The `co2` colours follow the emitters: three generation sources and the road fleet. */
  lemma EmissionsColours()
    ensures FollowsKeys(Palette("co2"), [Geothermal, Coal, Gas, Road])
  {
  }

  /** assignColors: the chart's palette, and a `'none'` padding colour when `delta` is positive. */
  function AssignColors(prefix: string, delta: real): (colours: seq<string>)
    ensures |colours| == |Palette(prefix)| + (if delta > 0.0 then 1 else 0)
    ensures colours[..|Palette(prefix)|] == Palette(prefix)
    ensures "none" in colours <==> delta > 0.0
  {
    var palette := Palette(prefix);
    assert "none" !in palette;
    palette + (if delta > 0.0 then ["none"] else [])
  }

  /** There is a colour for every segment when the data has one key per palette colour. */
  lemma ColourPerSegment(data: Obj, prefix: string, delta: real)
    requires Valid(data) && |data.keys| == |Palette(prefix)|
    ensures |AssignColors(prefix, delta)| == |Prepared(data, delta)| - 1
  {
    PreparedShape(data, delta);
  }
}
