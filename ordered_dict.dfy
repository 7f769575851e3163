/** A Python dictionary with string keys: its keys in insertion order and the value of
    each. Assigning to a present key changes its value and keeps its position. */
module OrderedDict {

  datatype Dict<V> = Dict(keys: seq<string>, values: map<string, V>)

  /** The keys are distinct and are exactly the keys of the value map. */
  ghost predicate Valid<V>(d: Dict<V>) {
    && (forall i, j :: 0 <= i < j < |d.keys| ==> d.keys[i] != d.keys[j])
    && (forall k :: k in d.values <==> k in d.keys)
  }

  function Empty<V>(): (d: Dict<V>)
    ensures Valid(d) && d.keys == [] && d.values == map[]
  {
    Dict([], map[])
  }

  /** `d[k] = v` */
  function Put<V>(d: Dict<V>, k: string, v: V): (r: Dict<V>)
    requires Valid(d)
    ensures Valid(r)
    ensures r.values == d.values[k := v]
    ensures k in d.values ==> r.keys == d.keys
    ensures k !in d.values ==> r.keys == d.keys + [k]
  {
    if k in d.values then Dict(d.keys, d.values[k := v]) else Dict(d.keys + [k], d.values[k := v])
  }

  /** `d.get(k, default)` */
  function Get<V>(d: Dict<V>, k: string, default: V): V
  {
    if k in d.values then d.values[k] else default
  }

  /** The sum of the values stored under `keys`. */
  function SumOver(keys: seq<string>, values: map<string, real>): real
  {
    if |keys| == 0 then 0.0
    else SumOver(keys[..|keys| - 1], values) + (if keys[|keys| - 1] in values then values[keys[|keys| - 1]] else 0.0)
  }

  /** `sum(d.values())` */
  function Sum(d: Dict<real>): real
  {
    SumOver(d.keys, d.values)
  }

  /** Changing the value of a key that `keys` does not hold leaves their sum as it is. */
  lemma {:induction false} SumOverOther(keys: seq<string>, values: map<string, real>, k: string, v: real)
    requires k !in keys
    ensures SumOver(keys, values[k := v]) == SumOver(keys, values)
  {
    if |keys| > 0 {
      SumOverOther(keys[..|keys| - 1], values, k, v);
    }
  }

  /** Adding `x` to the value of a key that `keys` holds once adds `x` to their sum. */
  lemma {:induction false} SumOverBump(keys: seq<string>, values: map<string, real>, k: string, x: real)
    requires k in values
    requires forall i, j :: 0 <= i < j < |keys| ==> keys[i] != keys[j]
    requires k in keys
    ensures SumOver(keys, values[k := values[k] + x]) == SumOver(keys, values) + x
  {
    var init := keys[..|keys| - 1];
    if keys[|keys| - 1] == k {
      assert k !in init;
      SumOverOther(init, values, k, values[k] + x);
    } else {
      assert k in init;
      SumOverBump(init, values, k, x);
    }
  }

  /** `d[k] = d.get(k, 0) + x` */
  function AddTo(d: Dict<real>, k: string, x: real): (r: Dict<real>)
    requires Valid(d)
    ensures Valid(r)
    ensures r.values == d.values[k := Get(d, k, 0.0) + x]
    ensures r.keys == if k in d.values then d.keys else d.keys + [k]
  {
    Put(d, k, Get(d, k, 0.0) + x)
  }

  /** `d[k] = d.get(k, 0) + x` adds `x` to the sum of the values. */
  lemma Accumulate(d: Dict<real>, k: string, x: real)
    requires Valid(d)
    ensures Sum(AddTo(d, k, x)) == Sum(d) + x
  {
    if k in d.values {
      AccumulatePresent(d, k, x);
    } else {
      AccumulateAbsent(d, k, x);
    }
  }

  lemma AccumulatePresent(d: Dict<real>, k: string, x: real)
    requires Valid(d) && k in d.values
    ensures Sum(AddTo(d, k, x)) == Sum(d) + x
  {
    assert AddTo(d, k, x).keys == d.keys;
    SumOverBump(d.keys, d.values, k, x);
  }

  lemma AccumulateAbsent(d: Dict<real>, k: string, x: real)
    requires Valid(d) && k !in d.values
    ensures Sum(AddTo(d, k, x)) == Sum(d) + x
  {
    var r := AddTo(d, k, x);
    var v := Get(d, k, 0.0) + x;
    assert r.keys == d.keys + [k] && r.values == d.values[k := v];
    assert r.keys[..|r.keys| - 1] == d.keys && r.keys[|r.keys| - 1] == k;
    assert Sum(r) == SumOver(d.keys, r.values) + v;
    SumOverOther(d.keys, d.values, k, v);
  }

  /** Scaling every value by `c` scales their sum by `c`. */
  lemma {:induction false} SumOverScale(keys: seq<string>, values: map<string, real>, scaled: map<string, real>, c: real)
    requires scaled.Keys == values.Keys
    requires forall k :: k in values ==> scaled[k] == c * values[k]
    ensures SumOver(keys, scaled) == c * SumOver(keys, values)
  {
    if |keys| > 0 {
      SumOverScale(keys[..|keys| - 1], values, scaled, c);
    }
  }
}
