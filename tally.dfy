/**
 * A Python dict used as a set of running totals (`d[k] = d.get(k, 0) + v`), kept in
 * insertion order as Python dicts are.
 */
module Tally {

  import opened Seqs

  type Tally = seq<(string, real)>

  function Keys(t: Tally): (ks: seq<string>)
    ensures |ks| == |t|
    ensures forall i :: 0 <= i < |t| ==> ks[i] == t[i].0
  {
    seq(|t|, i requires 0 <= i < |t| => t[i].0)
  }

  /** No key twice, as in a dict. */
  predicate WellFormed(t: Tally) {
    Distinct(Keys(t))
  }

  /** `d.get(k, 0)` */
  function Get(t: Tally, k: string): real {
    if |t| == 0 then 0.0 else if t[0].0 == k then t[0].1 else Get(t[1..], k)
  }

  /** `d[k] = d.get(k, 0) + v` */
  function Add(t: Tally, k: string, v: real): Tally {
    if |t| == 0 then [(k, v)]
    else if t[0].0 == k then [(k, t[0].1 + v)] + t[1..]
    else [t[0]] + Add(t[1..], k, v)
  }

  /** `sum(d.values())` */
  function Total(t: Tally): real {
    if |t| == 0 then 0.0 else t[0].1 + Total(t[1..])
  }

  /** Adding `v` under any key adds `v` to the grand total. */
  lemma {:induction false} AddTotal(t: Tally, k: string, v: real)
    ensures Total(Add(t, k, v)) == Total(t) + v
  {
    if |t| > 0 && t[0].0 != k {
      AddTotal(t[1..], k, v);
    }
  }

  /** Adding under `k` keeps the existing keys in place and appends `k` when it is new. */
  lemma {:induction false} AddKeys(t: Tally, k: string, v: real)
    ensures Keys(Add(t, k, v)) == if k in Keys(t) then Keys(t) else Keys(t) + [k]
  {
    if |t| == 0 {
    } else if t[0].0 == k {
      assert k in Keys(t) by { assert Keys(t)[0] == k; }
      assert Keys(Add(t, k, v)) == Keys(t);
    } else {
      AddKeysCons(t, k, v);
      AddKeys(t[1..], k, v);
      assert k in Keys(t) <==> k in Keys(t[1..]);
    }
  }

  /** Past a first entry with another key, `Add` works on the rest and the first key stays in front. */
  lemma AddKeysCons(t: Tally, k: string, v: real)
    requires |t| > 0 && t[0].0 != k
    ensures Keys(t) == [t[0].0] + Keys(t[1..])
    ensures Keys(Add(t, k, v)) == [t[0].0] + Keys(Add(t[1..], k, v))
  {
    var rest := Add(t[1..], k, v);
    assert Add(t, k, v) == [t[0]] + rest;
    assert Keys([t[0]] + rest) == [t[0].0] + Keys(rest);
  }

  /** Adding under `k` loses no key and makes `k` a key. */
  lemma KeysGrow(t: Tally, k: string, v: real)
    ensures forall x | x in Keys(t) :: x in Keys(Add(t, k, v))
    ensures k in Keys(Add(t, k, v))
  {
    AddKeys(t, k, v);
    if k !in Keys(t) {
      assert Keys(Add(t, k, v))[|t|] == k;
    }
  }

  /** Keys stay unique. */
  lemma AddWellFormed(t: Tally, k: string, v: real)
    requires WellFormed(t)
    ensures WellFormed(Add(t, k, v))
  {
    AddKeys(t, k, v);
  }

  /** Adding under `k` changes the entry for `k` by `v` and no other entry. */
  lemma {:induction false} AddGet(t: Tally, k: string, v: real, k': string)
    requires WellFormed(t)
    ensures Get(Add(t, k, v), k') == Get(t, k') + (if k' == k then v else 0.0)
  {
    if |t| > 0 {
      assert Keys(t[1..]) == Keys(t)[1..];
      assert WellFormed(t[1..]);
      if t[0].0 != k {
        AddGet(t[1..], k, v, k');
      } else if k' == k {
        assert k !in Keys(t)[1..];
        GetAbsent(t[1..], k);
      }
    }
  }

  /** A key that is not in the dict reads as 0. */
  lemma GetAbsent(t: Tally, k: string)
    requires k !in Keys(t)
    ensures Get(t, k) == 0.0
  {
    if |t| > 0 {
      assert Keys(t[1..]) == Keys(t)[1..];
    }
  }
}
