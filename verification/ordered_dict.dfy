/**
 * Python's insertion-ordered `dict` with string keys: an association list
 * whose keys are unique. Assigning to an existing key keeps its position;
 * a new key goes to the end. `Update` is `dict.update`, applied pair by
 * pair in the argument's order.
 */
module OrderedDict {
  import opened Wrappers

  type Dict<V> = seq<(string, V)>

  function Keys<V>(d: Dict<V>): (ks: seq<string>)
    ensures |ks| == |d|
    ensures forall i :: 0 <= i < |d| ==> ks[i] == d[i].0
  {
    seq(|d|, i requires 0 <= i < |d| => d[i].0)
  }

  /** The keys of a non-empty dictionary: those before its last pair, then the last pair's. */
  lemma KeysSnoc<V>(d: Dict<V>)
    requires |d| > 0
    ensures Keys(d) == Keys(d[..|d| - 1]) + [d[|d| - 1].0]
  {
    var a, b := Keys(d), Keys(d[..|d| - 1]) + [d[|d| - 1].0];
    forall i | 0 <= i < |a|
      ensures a[i] == b[i]
    {
      if i < |d| - 1 {
        assert d[..|d| - 1][i] == d[i];
      }
    }
  }

  /** The keys of a non-empty dictionary: its first pair's, then those after it. */
  lemma KeysCons<V>(d: Dict<V>)
    requires |d| > 0
    ensures Keys(d) == [d[0].0] + Keys(d[1..])
  {
    var a, b := Keys(d), [d[0].0] + Keys(d[1..]);
    forall i | 0 <= i < |a|
      ensures a[i] == b[i]
    {
      if i > 0 {
        assert d[1..][i - 1] == d[i];
      }
    }
  }

  predicate UniqueKeys<V>(d: Dict<V>) {
    forall i, j :: 0 <= i < j < |d| ==> d[i].0 != d[j].0
  }

  /** `d.get(k)`: the value stored under `k` (the latest one, should the list repeat a key). */
  function Get<V>(d: Dict<V>, k: string): Option<V> {
    if |d| == 0 then None
    else if d[|d| - 1].0 == k then Some(d[|d| - 1].1)
    else Get(d[..|d| - 1], k)
  }

  /** A key has a value exactly when it is one of the keys. */
  lemma {:induction false} GetDefined<V>(d: Dict<V>, k: string)
    ensures Get(d, k).Some? <==> k in Keys(d)
    decreases |d|
  {
    if d != [] {
      KeysSnoc(d);
      GetDefined(d[..|d| - 1], k);
    }
  }

  /** What `Get` finds under a key is one of the dictionary's pairs. */
  lemma {:induction false} GetIn<V>(d: Dict<V>, k: string)
    requires Get(d, k).Some?
    ensures (k, Get(d, k).value) in d
    decreases |d|
  {
    if d[|d| - 1].0 != k {
      GetIn(d[..|d| - 1], k);
    }
  }

  /** `d.get(k, default)`. */
  function GetOr<V>(d: Dict<V>, k: string, default: V): V {
    Get(d, k).GetOr(default)
  }

  /** Looking a key up in a concatenation: the later part wins. */
  lemma {:induction false} GetConcat<V>(a: Dict<V>, b: Dict<V>, k: string)
    ensures Get(a + b, k) == if Get(b, k).Some? then Get(b, k) else Get(a, k)
    decreases |b|
  {
    if b == [] {
      assert a + b == a;
    } else {
      assert (a + b)[..|a + b| - 1] == a + b[..|b| - 1];
      GetConcat(a, b[..|b| - 1], k);
    }
  }

  /** Position of `k` among the keys, or `|d|` when absent. */
  function Position<V>(d: Dict<V>, k: string): (i: nat)
    ensures i <= |d|
    ensures i < |d| ==> d[i].0 == k
  {
    if |d| == 0 then 0
    else if d[0].0 == k then 0
    else 1 + Position(d[1..], k)
  }

  /** The position is past the end exactly when the key is absent. */
  lemma {:induction false} PositionAbsent<V>(d: Dict<V>, k: string)
    ensures Position(d, k) == |d| <==> k !in Keys(d)
    decreases |d|
  {
    if |d| > 0 {
      if d[0].0 == k {
        assert Keys(d)[0] == k;
      } else {
        KeysCons(d);
        PositionAbsent(d[1..], k);
      }
    }
  }

  /** `d[k] = v`. */
  function Set<V>(d: Dict<V>, k: string, v: V): Dict<V> {
    var i := Position(d, k);
    if i < |d| then d[i := (k, v)] else d + [(k, v)]
  }

  /** `d.update(e)`: the pairs of `e` assigned one after another. */
  function Update<V>(d: Dict<V>, e: Dict<V>): Dict<V> {
    if |e| == 0 then d
    else Set(Update(d, e[..|e| - 1]), e[|e| - 1].0, e[|e| - 1].1)
  }

  /** The dictionary viewed as an unordered map. */
  function ToMap<V>(d: Dict<V>): (m: map<string, V>)
    ensures m.Keys == set k | k in Keys(d)
    ensures forall k :: k in m ==> Get(d, k) == Some(m[k])
  {
    forall k | k in Keys(d) ensures Get(d, k).Some? { GetDefined(d, k); }
    map k | k in Keys(d) :: Get(d, k).value
  }

  /** In a dictionary with unique keys, each pair is what `Get` finds under its key. */
  lemma {:induction false} GetAt<V>(d: Dict<V>, i: nat)
    requires UniqueKeys(d) && i < |d|
    ensures Get(d, d[i].0) == Some(d[i].1)
    decreases |d|
  {
    if i < |d| - 1 {
      var init := d[..|d| - 1];
      assert init[i] == d[i];
      assert d[|d| - 1].0 != d[i].0;
      GetAt(init, i);
    }
  }

  /** Assignment keeps keys unique, stores `v` under `k`, and leaves every other key alone. */
  lemma SetProperties<V>(d: Dict<V>, k: string, v: V)
    requires UniqueKeys(d)
    ensures UniqueKeys(Set(d, k, v))
    ensures Get(Set(d, k, v), k) == Some(v)
    ensures forall k' :: k' != k ==> Get(Set(d, k, v), k') == Get(d, k')
    ensures Keys(Set(d, k, v)) == if k in Keys(d) then Keys(d) else Keys(d) + [k]
  {
    var p := Position(d, k);
    PositionAbsent(d, k);
    if p < |d| {
      SetReplace(d, p, k, v);
    } else {
      SetAppend(d, k, v);
    }
  }

  /** Assigning to a key already present: the pair keeps its place and takes the new value. */
  lemma SetReplace<V>(d: Dict<V>, p: nat, k: string, v: V)
    requires UniqueKeys(d) && p < |d| && d[p].0 == k
    ensures UniqueKeys(d[p := (k, v)]) && Keys(d[p := (k, v)]) == Keys(d)
    ensures Get(d[p := (k, v)], k) == Some(v)
    ensures forall k' :: k' != k ==> Get(d[p := (k, v)], k') == Get(d, k')
  {
    var r := d[p := (k, v)];
    assert Keys(r) == Keys(d);
    GetAt(r, p);
    forall k' | k' != k
      ensures Get(r, k') == Get(d, k')
    {
      GetOtherAfterReplace(d, p, k, v, k');
    }
  }

  /** Assigning to a new key: the pair goes to the end. */
  lemma SetAppend<V>(d: Dict<V>, k: string, v: V)
    requires UniqueKeys(d) && k !in Keys(d)
    ensures UniqueKeys(d + [(k, v)]) && Keys(d + [(k, v)]) == Keys(d) + [k]
    ensures Get(d + [(k, v)], k) == Some(v)
    ensures forall k' :: k' != k ==> Get(d + [(k, v)], k') == Get(d, k')
  {
    var r := d + [(k, v)];
    assert r[..|r| - 1] == d;
    assert forall i :: 0 <= i < |d| ==> d[i].0 == Keys(d)[i];
  }

  lemma {:induction false} GetOtherAfterReplace<V>(d: Dict<V>, p: nat, k: string, v: V, k': string)
    requires p < |d| && d[p].0 == k && k' != k
    ensures Get(d[p := (k, v)], k') == Get(d, k')
    decreases |d|
  {
    var r := d[p := (k, v)];
    if p < |d| - 1 {
      assert r[..|r| - 1] == d[..|d| - 1][p := (k, v)];
      GetOtherAfterReplace(d[..|d| - 1], p, k, v, k');
    } else {
      assert r[..|r| - 1] == d[..|d| - 1];
    }
  }

  /**
   * `d.update(e)` reads as the pairs of `e` laid over `d`: a key `e` mentions
   * takes `e`'s value, any other key keeps `d`'s, keys stay unique, and the
   * keys `d` already had keep their places at the front.
   */
  lemma UpdateProperties<V>(d: Dict<V>, e: Dict<V>)
    requires UniqueKeys(d)
    ensures UniqueKeys(Update(d, e))
    ensures forall k :: Get(Update(d, e), k) == if k in Keys(e) then Get(e, k) else Get(d, k)
    ensures |Keys(d)| <= |Keys(Update(d, e))| && Keys(Update(d, e))[..|Keys(d)|] == Keys(d)
  {
    UpdateUnique(d, e);
    forall k
      ensures Get(Update(d, e), k) == if k in Keys(e) then Get(e, k) else Get(d, k)
    {
      UpdateGet(d, e, k);
    }
    UpdateKeepsOrder(d, e);
  }

  lemma {:induction false} UpdateUnique<V>(d: Dict<V>, e: Dict<V>)
    requires UniqueKeys(d)
    ensures UniqueKeys(Update(d, e))
    decreases |e|
  {
    if e != [] {
      UpdateUnique(d, e[..|e| - 1]);
      SetProperties(Update(d, e[..|e| - 1]), e[|e| - 1].0, e[|e| - 1].1);
    }
  }

  lemma {:induction false} UpdateGet<V>(d: Dict<V>, e: Dict<V>, k: string)
    requires UniqueKeys(d)
    ensures Get(Update(d, e), k) == if k in Keys(e) then Get(e, k) else Get(d, k)
    decreases |e|
  {
    if |e| > 0 {
      var init, last := e[..|e| - 1], e[|e| - 1];
      UpdateUnique(d, init);
      UpdateGet(d, init, k);
      SetProperties(Update(d, init), last.0, last.1);
      KeysSnoc(e);
      if k == last.0 {
        assert Get(e, k) == Some(last.1);
      } else {
        assert Get(e, k) == Get(init, k);
      }
    }
  }

  lemma {:induction false} UpdateKeepsOrder<V>(d: Dict<V>, e: Dict<V>)
    requires UniqueKeys(d)
    ensures |Keys(d)| <= |Keys(Update(d, e))| && Keys(Update(d, e))[..|Keys(d)|] == Keys(d)
    decreases |e|
  {
    if e != [] {
      var init := e[..|e| - 1];
      UpdateUnique(d, init);
      UpdateKeepsOrder(d, init);
      SetProperties(Update(d, init), e[|e| - 1].0, e[|e| - 1].1);
    }
  }

  /** Ordered update agrees with map override on the unordered view. */
  lemma UpdateToMap<V>(d: Dict<V>, e: Dict<V>)
    requires UniqueKeys(d)
    ensures ToMap(Update(d, e)) == ToMap(d) + ToMap(e)
  {
    var u := Update(d, e);
    var l, r := ToMap(u), ToMap(d) + ToMap(e);
    forall k
      ensures k in l <==> k in r
      ensures k in l ==> l[k] == r[k]
    {
      UpdateGet(d, e, k);
      GetDefined(u, k);
      GetDefined(d, k);
      GetDefined(e, k);
    }
  }
}
