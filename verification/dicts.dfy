/** A Python `dict` with string keys, as the pipeline uses it for the
    band-to-path table: entries in insertion order, keys distinct, and
    re-assigning an existing key replaces its value in place without moving
    it (so iteration order is the order of first insertion).
 */
module Dicts {
  import opened Results
  import opened Strings

  type Dict<V> = seq<(string, V)>

  function Keys<V>(d: Dict<V>): (ks: seq<string>)
    ensures |ks| == |d|
  {
    seq(|d|, i requires 0 <= i < |d| => d[i].0)
  }

  predicate Valid<V>(d: Dict<V>)
  {
    Distinct(Keys(d))
  }

  lemma KeysTail<V>(d: Dict<V>)
    requires |d| > 0
    ensures Keys(d) == [d[0].0] + Keys(d[1..])
  {
  }

  /** A dict is valid exactly when its tail is and its head key is new. */
  lemma ValidCons<V>(d: Dict<V>)
    requires |d| > 0
    ensures Valid(d) <==> Valid(d[1..]) && d[0].0 !in Keys(d[1..])
  {
    KeysTail(d);
    var ks := Keys(d);
    if Valid(d[1..]) && d[0].0 !in Keys(d[1..]) {
      forall a, b | 0 <= a < b < |ks|
        ensures ks[a] != ks[b]
      {
        if a > 0 {
          assert ks[a] == Keys(d[1..])[a - 1] && ks[b] == Keys(d[1..])[b - 1];
        } else {
          assert ks[b] == Keys(d[1..])[b - 1];
        }
      }
    }
    if Valid(d) {
      forall a, b | 0 <= a < b < |d[1..]|
        ensures Keys(d[1..])[a] != Keys(d[1..])[b]
      {
        assert ks[a + 1] != ks[b + 1];
      }
      forall j | 0 <= j < |d[1..]|
        ensures Keys(d[1..])[j] != d[0].0
      {
        assert ks[0] != ks[j + 1];
      }
    }
  }

  /** `d.get(k)`: the value stored under `k`, if any. */
  function Get<V>(d: Dict<V>, k: string): (r: Option<V>)
    ensures r.None? <==> k !in Keys(d)
    ensures r.Some? ==> exists i | 0 <= i < |d| :: d[i].0 == k && d[i].1 == r.value
  {
    if |d| == 0 then None
    else if d[0].0 == k then
      KeysTail(d);
      Some(d[0].1)
    else
      KeysTail(d);
      var r := Get(d[1..], k);
      assert r.Some? ==> exists i | 0 <= i < |d[1..]| :: d[1..][i].0 == k && d[1..][i].1 == r.value;
      r
  }

  /** In a valid dict every entry is what `Get` finds under its key. */
  lemma {:induction false} GetEntry<V>(d: Dict<V>, i: nat)
    requires Valid(d) && i < |d|
    ensures Get(d, d[i].0) == Some(d[i].1)
  {
    KeysTail(d);
    if i > 0 {
      assert Keys(d)[0] != Keys(d)[i];
      ValidCons(d);
      GetEntry(d[1..], i - 1);
    }
  }

  /** `d[k] = v`. */
  function Set<V>(d: Dict<V>, k: string, v: V): (r: Dict<V>)
    requires Valid(d)
    ensures Valid(r)
    ensures Get(r, k) == Some(v)
    ensures forall k' | k' != k :: Get(r, k') == Get(d, k')
    ensures Keys(r) == if k in Keys(d) then Keys(d) else Keys(d) + [k]
  {
    if |d| == 0 then [(k, v)]
    else if d[0].0 == k then
      KeysTail(d);
      assert Keys([(k, v)] + d[1..]) == Keys(d);
      [(k, v)] + d[1..]
    else
      ValidCons(d);
      var t := Set(d[1..], k, v);
      SetBehind(d, k, v, t);
      [d[0]] + t
  }

  /** The step of `Set` that keeps the head entry and updates the tail. */
  lemma SetBehind<V>(d: Dict<V>, k: string, v: V, t: Dict<V>)
    requires |d| > 0 && d[0].0 != k
    requires Valid(d[1..]) && d[0].0 !in Keys(d[1..])
    requires Valid(t)
    requires Get(t, k) == Some(v)
    requires forall k' | k' != k :: Get(t, k') == Get(d[1..], k')
    requires Keys(t) == if k in Keys(d[1..]) then Keys(d[1..]) else Keys(d[1..]) + [k]
    ensures var r := [d[0]] + t;
      && Valid(r)
      && Get(r, k) == Some(v)
      && (forall k' | k' != k :: Get(r, k') == Get(d, k'))
      && Keys(r) == if k in Keys(d) then Keys(d) else Keys(d) + [k]
  {
    var r := [d[0]] + t;
    assert r[1..] == t;
    KeysTail(d);
    KeysTail(r);
    assert k in Keys(d) <==> k in Keys(d[1..]);
    ValidCons(r);
  }
}
