/**
 * Grouping a sequence by key the way an insertion-ordered dictionary of
 * lists does it: a group is created the first time its key is met and
 * each item is appended to its group. `GroupBy` is one level, `GroupBy2`
 * two levels (an outer key, then an inner key within each outer group).
 * The lemmas relate both to reference definitions: group keys are the
 * input keys in order of first appearance, each group holds exactly the
 * items with its key in input order, and the groups partition the input.
 */
module Grouping {
  import opened Wrappers

  function KeysOf<K, M>(gs: seq<(K, M)>): (ks: seq<K>)
    ensures |ks| == |gs|
    ensures forall i :: 0 <= i < |gs| ==> ks[i] == gs[i].0
  {
    seq(|gs|, i requires 0 <= i < |gs| => gs[i].0)
  }

  predicate Distinct<K(==)>(ks: seq<K>) {
    forall i, j :: 0 <= i < j < |ks| ==> ks[i] != ks[j]
  }

  /** Where the group of `k` is, if it exists yet. */
  function Find<K(==), M>(gs: seq<(K, M)>, k: K): (r: Option<nat>)
    ensures r.Some? ==> r.value < |gs| && gs[r.value].0 == k
    ensures r.None? ==> forall i :: 0 <= i < |gs| ==> gs[i].0 != k
  {
    if |gs| == 0 then None
    else if gs[|gs| - 1].0 == k then Some(|gs| - 1)
    else Find(gs[..|gs| - 1], k)
  }

  /** `groups.setdefault(k, []).append(t)`. */
  function Append<K(==), T>(gs: seq<(K, seq<T>)>, k: K, t: T): seq<(K, seq<T>)> {
    match Find(gs, k)
    case Some(i) => gs[i := (k, gs[i].1 + [t])]
    case None => gs + [(k, [t])]
  }

  function GroupBy<K(==), T>(items: seq<(K, T)>): seq<(K, seq<T>)> {
    if |items| == 0 then []
    else Append(GroupBy(items[..|items| - 1]), items[|items| - 1].0, items[|items| - 1].1)
  }

  /** The keys in order of first appearance, each once. */
  function FirstSeen<K(==)>(ks: seq<K>): (d: seq<K>)
    ensures Distinct(d)
    ensures forall i :: 0 <= i < |d| ==> d[i] in ks
    ensures forall i :: 0 <= i < |ks| ==> ks[i] in d
  {
    if |ks| == 0 then []
    else
      var d := FirstSeen(ks[..|ks| - 1]);
      if ks[|ks| - 1] in d then d else d + [ks[|ks| - 1]]
  }

  /** The items under key `k`, in input order. */
  function Select<K(==), T>(items: seq<(K, T)>, k: K): seq<T> {
    if |items| == 0 then []
    else Select(items[..|items| - 1], k) + (if items[|items| - 1].0 == k then [items[|items| - 1].1] else [])
  }

  function Values<K, T>(items: seq<(K, T)>): (vs: seq<T>)
    ensures |vs| == |items|
    ensures forall i :: 0 <= i < |items| ==> vs[i] == items[i].1
  {
    seq(|items|, i requires 0 <= i < |items| => items[i].1)
  }

  /** All grouped items, group after group. */
  function Flatten<K, T>(gs: seq<(K, seq<T>)>): seq<T> {
    if |gs| == 0 then [] else Flatten(gs[..|gs| - 1]) + gs[|gs| - 1].1
  }

  lemma AppendKeys<K, T>(gs: seq<(K, seq<T>)>, k: K, t: T)
    ensures KeysOf(Append(gs, k, t)) == if k in KeysOf(gs) then KeysOf(gs) else KeysOf(gs) + [k]
  {
    match Find(gs, k)
    case Some(i) =>
      assert KeysOf(gs)[i] == k;
    case None =>
  }

  lemma {:induction false} GroupByKeys<K, T>(items: seq<(K, T)>)
    ensures KeysOf(GroupBy(items)) == FirstSeen(KeysOf(items))
  {
    if items != [] {
      var init := items[..|items| - 1];
      GroupByKeys(init);
      assert KeysOf(items)[..|items| - 1] == KeysOf(init);
      AppendKeys(GroupBy(init), items[|items| - 1].0, items[|items| - 1].1);
    }
  }

  lemma {:induction false} SelectAbsent<K, T>(items: seq<(K, T)>, k: K)
    requires k !in KeysOf(items)
    ensures Select(items, k) == []
  {
    if items != [] {
      var init := items[..|items| - 1];
      assert KeysOf(items)[..|items| - 1] == KeysOf(init);
      SelectAbsent(init, k);
    }
  }

  /**
   * The group keys are distinct and each group holds exactly the items
   * under its key, in input order.
   */
  lemma {:induction false} GroupByMembers<K, T>(items: seq<(K, T)>)
    ensures Distinct(KeysOf(GroupBy(items)))
    ensures forall i :: 0 <= i < |GroupBy(items)| ==> GroupBy(items)[i].1 == Select(items, GroupBy(items)[i].0)
  {
    GroupByKeys(items);
    if items != [] {
      var init := items[..|items| - 1];
      var k, t := items[|items| - 1].0, items[|items| - 1].1;
      var gs := GroupBy(init);
      GroupByMembers(init);
      GroupByKeys(init);
      var gs' := GroupBy(items);
      forall i | 0 <= i < |gs'|
        ensures gs'[i].1 == Select(items, gs'[i].0)
      {
        match Find(gs, k)
        case Some(j) =>
          if i != j {
            assert KeysOf(gs)[i] != KeysOf(gs)[j];
          }
        case None =>
          if i == |gs| {
            assert k !in KeysOf(gs);
            SelectAbsent(init, k);
          }
      }
    }
  }

  /** Replacing one group changes the flattened contents by exactly the difference of the two groups. */
  lemma {:induction false} FlattenReplace<K, T>(gs: seq<(K, seq<T>)>, i: nat, g: (K, seq<T>))
    requires i < |gs|
    ensures multiset(Flatten(gs[i := g])) + multiset(gs[i].1) == multiset(Flatten(gs)) + multiset(g.1)
    decreases |gs|
  {
    var n := |gs|;
    var h := gs[i := g];
    assert Flatten(gs) == Flatten(gs[..n - 1]) + gs[n - 1].1;
    if i == n - 1 {
      assert h[..n - 1] == gs[..n - 1];
      assert Flatten(h) == Flatten(gs[..n - 1]) + g.1;
    } else {
      assert h[..n - 1] == gs[..n - 1][i := g];
      assert Flatten(h) == Flatten(gs[..n - 1][i := g]) + gs[n - 1].1;
      assert gs[..n - 1][i] == gs[i];
      FlattenReplace(gs[..n - 1], i, g);
      var a, b := multiset(Flatten(gs[..n - 1][i := g])), multiset(Flatten(gs[..n - 1]));
      var last, mi, mg := multiset(gs[n - 1].1), multiset(gs[i].1), multiset(g.1);
      assert multiset(Flatten(h)) == a + last;
      assert multiset(Flatten(gs)) == b + last;
      assert a + mi == b + mg;
      assert (a + last) + mi == (a + mi) + last;
      assert (b + mg) + last == (b + last) + mg;
      assert multiset(Flatten(h)) + multiset(gs[i].1) == multiset(Flatten(gs)) + multiset(g.1);
    }
  }

  /** Adding the same multiset to both sides of a balanced sum keeps it balanced. */
  lemma MultisetShift<T>(a: multiset<T>, b: multiset<T>, c: multiset<T>, d: multiset<T>, t: multiset<T>)
    requires a + b == c + d
    ensures (a + t) + b == (c + t) + d
  {
    forall e
      ensures ((a + t) + b)[e] == ((c + t) + d)[e]
    {
      assert (a + b)[e] == (c + d)[e];
    }
  }

  lemma MultisetCancel<T>(x: multiset<T>, y: multiset<T>, m: multiset<T>)
    requires x + m == y + m
    ensures x == y
  {
    forall e
      ensures x[e] == y[e]
    {
      assert (x + m)[e] == (y + m)[e];
    }
  }

  lemma AppendFlatten<K, T>(gs: seq<(K, seq<T>)>, k: K, t: T)
    ensures multiset(Flatten(Append(gs, k, t))) == multiset(Flatten(gs)) + multiset{t}
  {
    match Find(gs, k)
    case Some(i) =>
      AppendFlattenAt(gs, i, k, t);
    case None =>
      var h := gs + [(k, [t])];
      assert h[..|gs|] == gs;
      assert Flatten(h) == Flatten(gs) + [t];
  }

  lemma AppendFlattenAt<K, T>(gs: seq<(K, seq<T>)>, i: nat, k: K, t: T)
    requires i < |gs|
    ensures multiset(Flatten(gs[i := (k, gs[i].1 + [t])])) == multiset(Flatten(gs)) + multiset{t}
  {
    var h := gs[i := (k, gs[i].1 + [t])];
    var mi := multiset(gs[i].1);
    FlattenReplace(gs, i, (k, gs[i].1 + [t]));
    assert multiset(gs[i].1 + [t]) == mi + multiset{t};
    var want := multiset(Flatten(gs)) + multiset{t};
    assert want + mi == multiset(Flatten(gs)) + (mi + multiset{t});
    MultisetCancel(multiset(Flatten(h)), want, mi);
  }

  /** Every item lands in exactly one group: the groups are a permutation of the input. */
  lemma {:induction false} GroupByPartition<K, T>(items: seq<(K, T)>)
    ensures multiset(Flatten(GroupBy(items))) == multiset(Values(items))
  {
    if |items| > 0 {
      var init, last := items[..|items| - 1], items[|items| - 1];
      GroupByPartition(init);
      assert GroupBy(items) == Append(GroupBy(init), last.0, last.1);
      AppendFlatten(GroupBy(init), last.0, last.1);
      ValuesSnoc(items);
      assert multiset(Values(items)) == multiset(Values(init)) + multiset{last.1};
    }
  }

  /** The values of a non-empty list: those before its last item, then the last item's. */
  lemma ValuesSnoc<K, T>(items: seq<(K, T)>)
    requires |items| > 0
    ensures Values(items) == Values(items[..|items| - 1]) + [items[|items| - 1].1]
  {
    var a, b := Values(items), Values(items[..|items| - 1]) + [items[|items| - 1].1];
    forall i | 0 <= i < |a|
      ensures a[i] == b[i]
    {
      if i < |items| - 1 {
        assert items[..|items| - 1][i] == items[i];
      }
    }
  }

  lemma {:induction false} FirstSeenHead<K>(ks: seq<K>)
    requires ks != []
    ensures FirstSeen(ks)[0] == ks[0]
  {
    if |ks| > 1 {
      FirstSeenHead(ks[..|ks| - 1]);
    }
  }

  lemma {:induction false} SelectHead<K, T>(items: seq<(K, T)>)
    requires items != []
    ensures Select(items, items[0].0) != [] && Select(items, items[0].0)[0] == items[0].1
  {
    if |items| > 1 {
      SelectHead(items[..|items| - 1]);
    }
  }

  /** The first group is the first item's, and it starts with that item. */
  lemma GroupByHead<K, T>(items: seq<(K, T)>)
    requires items != []
    ensures |GroupBy(items)| > 0 && GroupBy(items)[0].0 == items[0].0
    ensures GroupBy(items)[0].1 != [] && GroupBy(items)[0].1[0] == items[0].1
  {
    GroupByKeys(items);
    GroupByMembers(items);
    FirstSeenHead(KeysOf(items));
    SelectHead(items);
  }

  // Two levels.

  /** `groups.setdefault(r, {}).setdefault(s, []).append(t)`. */
  function Append2<R(==), S(==), T>(gs: seq<(R, seq<(S, seq<T>)>)>, r: R, s: S, t: T): seq<(R, seq<(S, seq<T>)>)> {
    match Find(gs, r)
    case Some(i) => gs[i := (r, Append(gs[i].1, s, t))]
    case None => gs + [(r, Append([], s, t))]
  }

  function GroupBy2<R(==), S(==), T>(items: seq<(R, S, T)>): seq<(R, seq<(S, seq<T>)>)> {
    if |items| == 0 then []
    else
      var last := items[|items| - 1];
      Append2(GroupBy2(items[..|items| - 1]), last.0, last.1, last.2)
  }

  function OuterKeys<R, S, T>(items: seq<(R, S, T)>): (ks: seq<R>)
    ensures |ks| == |items|
    ensures forall i :: 0 <= i < |items| ==> ks[i] == items[i].0
  {
    seq(|items|, i requires 0 <= i < |items| => items[i].0)
  }

  /** The items under outer key `r`, as (inner key, item) pairs in input order. */
  function Inner<R(==), S, T>(items: seq<(R, S, T)>, r: R): seq<(S, T)> {
    if |items| == 0 then []
    else
      var last := items[|items| - 1];
      Inner(items[..|items| - 1], r) + (if last.0 == r then [(last.1, last.2)] else [])
  }

  function Thirds<R, S, T>(items: seq<(R, S, T)>): (vs: seq<T>)
    ensures |vs| == |items|
    ensures forall i :: 0 <= i < |items| ==> vs[i] == items[i].2
  {
    seq(|items|, i requires 0 <= i < |items| => items[i].2)
  }

  function Flatten2<R, S, T>(gs: seq<(R, seq<(S, seq<T>)>)>): seq<T> {
    if |gs| == 0 then [] else Flatten2(gs[..|gs| - 1]) + Flatten(gs[|gs| - 1].1)
  }

  lemma Append2Keys<R, S, T>(gs: seq<(R, seq<(S, seq<T>)>)>, r: R, s: S, t: T)
    ensures KeysOf(Append2(gs, r, s, t)) == if r in KeysOf(gs) then KeysOf(gs) else KeysOf(gs) + [r]
  {
    match Find(gs, r)
    case Some(i) =>
      assert KeysOf(gs)[i] == r;
    case None =>
  }

  lemma {:induction false} GroupBy2Keys<R, S, T>(items: seq<(R, S, T)>)
    ensures KeysOf(GroupBy2(items)) == FirstSeen(OuterKeys(items))
  {
    if items != [] {
      var init := items[..|items| - 1];
      var last := items[|items| - 1];
      GroupBy2Keys(init);
      assert OuterKeys(items)[..|items| - 1] == OuterKeys(init);
      Append2Keys(GroupBy2(init), last.0, last.1, last.2);
    }
  }

  lemma {:induction false} InnerAbsent<R, S, T>(items: seq<(R, S, T)>, r: R)
    requires forall j :: 0 <= j < |items| ==> items[j].0 != r
    ensures Inner(items, r) == []
  {
    if items != [] {
      var init := items[..|items| - 1];
      InnerAbsent(init, r);
    }
  }

  lemma InnerSnoc<R, S, T>(init: seq<(R, S, T)>, last: (R, S, T), r: R)
    ensures Inner(init + [last], r) == Inner(init, r) + (if last.0 == r then [(last.1, last.2)] else [])
  {
    assert (init + [last])[..|init|] == init;
  }

  lemma GroupBySnoc<K, T>(init: seq<(K, T)>, last: (K, T))
    ensures GroupBy(init + [last]) == Append(GroupBy(init), last.0, last.1)
  {
    assert (init + [last])[..|init|] == init;
  }

  /** The outer group at `i` is the one-level grouping of the items under its key. */
  lemma {:induction false} GroupBy2At<R, S, T>(items: seq<(R, S, T)>, i: nat)
    requires i < |GroupBy2(items)|
    ensures GroupBy2(items)[i].1 == GroupBy(Inner(items, GroupBy2(items)[i].0))
    decreases |items|
  {
    var init := items[..|items| - 1];
    var last := items[|items| - 1];
    assert items == init + [last];
    var gs := GroupBy2(init);
    var gs' := GroupBy2(items);
    assert gs' == Append2(gs, last.0, last.1, last.2);
    var key := gs'[i].0;
    InnerSnoc(init, last, key);
    assert Inner(items, key) == Inner(init, key) + (if last.0 == key then [(last.1, last.2)] else []);
    GroupBy2Keys(init);
    match Find(gs, last.0)
    case Some(j) =>
      if i != j {
        assert KeysOf(gs)[i] != KeysOf(gs)[j];
        GroupBy2At(init, i);
        assert gs'[i] == gs[i];
        assert key != last.0;
        assert Inner(items, key) == Inner(init, key);
      } else {
        GroupBy2At(init, j);
        GroupBySnoc(Inner(init, last.0), (last.1, last.2));
        assert gs'[i].1 == Append(gs[j].1, last.1, last.2);
        assert gs'[i].1 == GroupBy(Inner(items, key));
      }
    case None =>
      if i < |gs| {
        GroupBy2At(init, i);
        assert gs'[i] == gs[i];
        assert key != last.0;
        assert Inner(items, key) == Inner(init, key);
      } else {
        GroupBy2New(init, last);
        assert gs'[i] == (last.0, Append([], last.1, last.2));
        assert gs'[i].1 == GroupBy(Inner(items, key));
      }
  }

  lemma GroupBy2New<R, S, T>(init: seq<(R, S, T)>, last: (R, S, T))
    requires Find(GroupBy2(init), last.0).None?
    ensures GroupBy(Inner(init + [last], last.0)) == Append([], last.1, last.2)
  {
    var gs := GroupBy2(init);
    GroupBy2Keys(init);
    assert last.0 !in KeysOf(gs);
    forall j | 0 <= j < |init|
      ensures init[j].0 != last.0
    {
      assert OuterKeys(init)[j] == init[j].0;
    }
    InnerAbsent(init, last.0);
    InnerSnoc(init, last, last.0);
    GroupBySnoc([], (last.1, last.2));
    assert [] + [(last.1, last.2)] == [(last.1, last.2)];
  }

  /**
   * The outer keys are distinct, and each outer group is the one-level
   * grouping of exactly the items under its key, in input order.
   */
  lemma GroupBy2Members<R, S, T>(items: seq<(R, S, T)>)
    ensures Distinct(KeysOf(GroupBy2(items)))
    ensures forall i :: 0 <= i < |GroupBy2(items)| ==>
              GroupBy2(items)[i].1 == GroupBy(Inner(items, GroupBy2(items)[i].0))
  {
    GroupBy2Keys(items);
    forall i | 0 <= i < |GroupBy2(items)|
      ensures GroupBy2(items)[i].1 == GroupBy(Inner(items, GroupBy2(items)[i].0))
    {
      GroupBy2At(items, i);
    }
  }

  lemma {:induction false} Flatten2Replace<R, S, T>(gs: seq<(R, seq<(S, seq<T>)>)>, i: nat, g: (R, seq<(S, seq<T>)>))
    requires i < |gs|
    ensures multiset(Flatten2(gs[i := g])) + multiset(Flatten(gs[i].1)) == multiset(Flatten2(gs)) + multiset(Flatten(g.1))
    decreases |gs|
  {
    var n := |gs|;
    var h := gs[i := g];
    assert Flatten2(gs) == Flatten2(gs[..n - 1]) + Flatten(gs[n - 1].1);
    if i == n - 1 {
      assert h[..n - 1] == gs[..n - 1];
      assert Flatten2(h) == Flatten2(gs[..n - 1]) + Flatten(g.1);
    } else {
      var front := gs[..n - 1];
      assert front[i] == gs[i];
      assert h[..n - 1] == front[i := g];
      var tail := Flatten(gs[n - 1].1);
      assert Flatten2(h) == Flatten2(front[i := g]) + tail;
      Flatten2Replace(front, i, g);
      MultisetShift(multiset(Flatten2(front[i := g])), multiset(Flatten(gs[i].1)),
                    multiset(Flatten2(front)), multiset(Flatten(g.1)), multiset(tail));
    }
  }

  lemma Append2Flatten<R, S, T>(gs: seq<(R, seq<(S, seq<T>)>)>, r: R, s: S, t: T)
    ensures multiset(Flatten2(Append2(gs, r, s, t))) == multiset(Flatten2(gs)) + multiset{t}
  {
    match Find(gs, r)
    case Some(i) =>
      Append2FlattenAt(gs, i, r, s, t);
    case None =>
      Append2FlattenNew(gs, r, s, t);
  }

  lemma Append2FlattenNew<R, S, T>(gs: seq<(R, seq<(S, seq<T>)>)>, r: R, s: S, t: T)
    ensures Flatten2(gs + [(r, Append([], s, t))]) == Flatten2(gs) + [t]
  {
    var g := Append([], s, t);
    var h := gs + [(r, g)];
    assert h[..|gs|] == gs;
    assert g == [(s, [t])];
    assert g[..0] == [];
    assert Flatten(g) == [t];
  }

  lemma Append2FlattenAt<R, S, T>(gs: seq<(R, seq<(S, seq<T>)>)>, i: nat, r: R, s: S, t: T)
    requires i < |gs|
    ensures multiset(Flatten2(gs[i := (r, Append(gs[i].1, s, t))])) == multiset(Flatten2(gs)) + multiset{t}
  {
    var h := gs[i := (r, Append(gs[i].1, s, t))];
    var mi := multiset(Flatten(gs[i].1));
    Flatten2Replace(gs, i, (r, Append(gs[i].1, s, t)));
    AppendFlatten(gs[i].1, s, t);
    var want := multiset(Flatten2(gs)) + multiset{t};
    assert want + mi == multiset(Flatten2(gs)) + (mi + multiset{t});
    MultisetCancel(multiset(Flatten2(h)), want, mi);
  }

  /** Every item lands in exactly one inner group of exactly one outer group. */
  lemma {:induction false} GroupBy2Partition<R, S, T>(items: seq<(R, S, T)>)
    ensures multiset(Flatten2(GroupBy2(items))) == multiset(Thirds(items))
  {
    if items != [] {
      var init := items[..|items| - 1];
      var last := items[|items| - 1];
      GroupBy2Partition(init);
      assert Thirds(items) == Thirds(init) + [last.2];
      Append2Flatten(GroupBy2(init), last.0, last.1, last.2);
    }
  }

  /** No group is empty. */
  predicate Filled<K, T>(gs: seq<(K, seq<T>)>) {
    forall i :: 0 <= i < |gs| ==> gs[i].1 != []
  }

  predicate Filled2<R, S, T>(gs: seq<(R, seq<(S, seq<T>)>)>) {
    forall i :: 0 <= i < |gs| ==> gs[i].1 != [] && Filled(gs[i].1)
  }

  lemma AppendFilled<K, T>(gs: seq<(K, seq<T>)>, k: K, t: T)
    requires Filled(gs)
    ensures Filled(Append(gs, k, t)) && Append(gs, k, t) != []
  {
  }

  lemma {:induction false} GroupBy2Filled<R, S, T>(items: seq<(R, S, T)>)
    ensures Filled2(GroupBy2(items))
  {
    if items != [] {
      var last := items[|items| - 1];
      var gs := GroupBy2(items[..|items| - 1]);
      GroupBy2Filled(items[..|items| - 1]);
      match Find(gs, last.0)
      case Some(i) =>
        AppendFilled(gs[i].1, last.1, last.2);
      case None =>
        AppendFilled([], last.1, last.2);
    }
  }
}
