/**
 * A JavaScript object whose own properties all hold numbers, as the engines and the chart
 * helpers use them: `for (var key in o)` visits the keys in the order they were first
 * assigned, and `o[key] = v` replaces the value of a key in place or appends a new key.
 */
module Objects {

  /** The property names the objects of the engines and charts are keyed by. */
  datatype Key = Hydro | Geothermal | Wind | Coal | Insulation | Gas | Solar | Road

  /** Keys in insertion order, and the number each key holds. */
  datatype Obj = Obj(keys: seq<Key>, vals: map<Key, real>)

  /** No key occurs twice in `ks`. */
  ghost predicate Distinct(ks: seq<Key>)
  {
    forall i, j | 0 <= i < j < |ks| :: ks[i] != ks[j]
  }

  /** Dropping the last key keeps the others distinct, and the last key is not among them. */
  lemma DistinctInit(ks: seq<Key>)
    requires Distinct(ks) && ks != []
    ensures Distinct(ks[..|ks| - 1]) && ks[|ks| - 1] !in ks[..|ks| - 1]
  {
    var init := ks[..|ks| - 1];
    forall j | 0 <= j < |init|
      ensures init[j] != ks[|ks| - 1]
    {
      assert init[j] == ks[j];
    }
  }

  /** `k` is one of the keys of `ks`. */
  ghost predicate Listed(ks: seq<Key>, k: Key)
  {
    k in ks
  }

  /**
   * No key twice, and the keys listed are exactly the keys with a value. The second half is
   * only brought to bear where a proof names `Listed`.
   */
  ghost predicate Valid(o: Obj)
  {
    && Distinct(o.keys)
    && (forall j | 0 <= j < |o.keys| :: o.keys[j] in o.vals)
    && (forall k {:trigger Listed(o.keys, k)} | k in o.vals :: Listed(o.keys, k))
  }

  /** `o[k] = v`: an existing key keeps its place in the iteration order, a new one goes last. */
  function Put(o: Obj, k: Key, v: real): (r: Obj)
    requires Valid(o)
    ensures Valid(r)
    ensures k in o.vals ==> r.keys == o.keys
    ensures k !in o.vals ==> r.keys == o.keys + [k]
    ensures r.vals == o.vals[k := v]
  {
    assert forall x | x in o.vals :: Listed(o.keys, x);
    Obj(if k in o.vals then o.keys else o.keys + [k], o.vals[k := v])
  }

  /** The value of `k`, or 0 when `m` has no such key. */
  function ValueOr0(m: map<Key, real>, k: Key): real
  {
    if k in m then m[k] else 0.0
  }

  /** `total += m[key]` over `ks`, from the first key to the last. */
  function SumOver(ks: seq<Key>, m: map<Key, real>): real
    requires forall k | k in ks :: k in m
  {
    if ks == [] then 0.0 else SumOver(ks[..|ks| - 1], m) + m[ks[|ks| - 1]]
  }

  /** The sum of all the values of `o`. */
  function Sum(o: Obj): real
    requires Valid(o)
  {
    SumOver(o.keys, o.vals)
  }

  /**
   * The loop `var total = 0; for (var key in o) { total += o[key]; }`.
   */
  method SumValues(o: Obj) returns (total: real)
    requires Valid(o)
    ensures total == Sum(o)
  {
    total := 0.0;
    for n := 0 to |o.keys|
      invariant total == SumOver(o.keys[..n], o.vals)
    {
      assert o.keys[..n + 1][..n] == o.keys[..n];
      total := total + o.vals[o.keys[n]];
    }
    assert o.keys[..|o.keys|] == o.keys;
  }

  /**
   * The state of a loop `for (var key in o) { o[key] = ...; }` after its first `n` keys:
   * those keys hold the value `target` gives them, the others their old value, and the keys
   * keep their order.
   */
  ghost predicate RewrittenUpTo(o: Obj, target: map<Key, real>, n: int, r: Obj)
    requires 0 <= n <= |o.keys|
    requires forall k | k in o.vals :: k in target
    requires Valid(o)
  {
    && r.keys == o.keys && r.vals.Keys == o.vals.Keys
    && (forall j | 0 <= j < |o.keys| :: r.vals[o.keys[j]] == if j < n then target[o.keys[j]] else o.vals[o.keys[j]])
  }

  /** Rewriting the next key of the loop. */
  lemma RewriteStep(o: Obj, target: map<Key, real>, n: int, r: Obj, v: real)
    requires Valid(o) && 0 <= n < |o.keys| && forall k | k in o.vals :: k in target
    requires RewrittenUpTo(o, target, n, r)
    requires v == target[o.keys[n]]
    ensures o.keys[n] in r.vals && r.vals[o.keys[n]] == o.vals[o.keys[n]]
    ensures RewrittenUpTo(o, target, n + 1, Obj(r.keys, r.vals[o.keys[n] := v]))
  {
  }

  /** Once every key is rewritten, the object is `target` in the old key order. */
  lemma RewriteDone(o: Obj, target: map<Key, real>, r: Obj)
    requires Valid(o) && target.Keys == o.vals.Keys
    requires RewrittenUpTo(o, target, |o.keys|, r)
    ensures r == Obj(o.keys, target)
  {
    forall k | k in o.vals
      ensures r.vals[k] == target[k]
    {
      assert Listed(o.keys, k);
      var j :| 0 <= j < |o.keys| && o.keys[j] == k;
    }
  }
}

/**
 * The five lever values the page's sliders pass to the engine. The page hands them over as
 * strings, but the engines only ever use them with `*`, `/` and `-`, which convert them to
 * numbers first, so they are numbers here.
 */
module Levers {

  datatype Inputs = Inputs(
    carNumber: real,
    bicycleNumber: real,
    solarNumber: real,
    homeNumber: real,
    windfarmNumber: real)
}
