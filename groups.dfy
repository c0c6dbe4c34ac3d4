/**
 * Grouping rows of a table by a key column, in table order, the way pandas'
 * `groupby` sees them: how many rows share a key, `cumcount()` (a row's rank
 * among the earlier rows of its group), the positions of a group's rows, and
 * the row that `transform(lambda x: x.iloc[::-1].values)` pairs with each row.
 */
module Groups {

  /** How many entries of `keys` equal `k`. */
  function Count<K(==)>(keys: seq<K>, k: K): nat
    decreases |keys|
  {
    if |keys| == 0 then 0
    else Count(keys[..|keys| - 1], k) + (if keys[|keys| - 1] == k then 1 else 0)
  }

  /** `groupby(key).cumcount()`: how many earlier rows carry row `i`'s key. */
  function Rank<K(==)>(keys: seq<K>, i: nat): nat
    requires i < |keys|
  {
    Count(keys[..i], keys[i])
  }

  /** The positions of the rows whose key is `k`, in table order. */
  function Positions<K(==)>(keys: seq<K>, k: K): (p: seq<nat>)
    ensures |p| == Count(keys, k)
    ensures forall j :: 0 <= j < |p| ==> p[j] < |keys| && keys[p[j]] == k
    ensures forall j, j' :: 0 <= j < j' < |p| ==> p[j] < p[j']
    decreases |keys|
  {
    if |keys| == 0 then []
    else
      var n := |keys| - 1;
      var q := Positions(keys[..n], k);
      if keys[n] == k then q + [n] else q
  }

  /** Positions of a prefix are a prefix of the positions. */
  lemma {:induction false} PositionsPrefix<K>(keys: seq<K>, k: K, m: nat)
    requires m <= |keys|
    ensures Count(keys[..m], k) <= Count(keys, k)
    ensures Positions(keys[..m], k) == Positions(keys, k)[..Count(keys[..m], k)]
    decreases |keys|
  {
    if m < |keys| {
      var n := |keys| - 1;
      assert keys[..n][..m] == keys[..m];
      PositionsPrefix(keys[..n], k, m);
      var q := Positions(keys[..n], k);
      var c := Count(keys[..m], k);
      assert c <= |q|;
      assert Positions(keys, k)[..c] == q[..c];
    } else {
      assert keys[..m] == keys;
    }
  }

  /** Row `i` is the `Rank(keys, i)`-th row of its group. */
  lemma {:induction false} PositionAtRank<K>(keys: seq<K>, i: nat)
    requires i < |keys|
    ensures Rank(keys, i) < Count(keys, keys[i])
    ensures Positions(keys, keys[i])[Rank(keys, i)] == i
  {
    var k := keys[i];
    assert keys[..i + 1][..i] == keys[..i];
    PositionsPrefix(keys, k, i + 1);
    PositionsPrefix(keys, k, i);
  }

  /** The `m`-th row of a group has rank `m`. */
  lemma {:induction false} RankAtPosition<K>(keys: seq<K>, k: K, m: nat)
    requires m < Count(keys, k)
    ensures var p := Positions(keys, k); keys[p[m]] == k && Rank(keys, p[m]) == m
  {
    var p := Positions(keys, k);
    var i := p[m];
    PositionAtRank(keys, i);
  }

  /** An earlier row of the same group has a smaller rank. */
  lemma {:induction false} RankMonotone<K>(keys: seq<K>, j: nat, i: nat)
    requires j < i < |keys| && keys[j] == keys[i]
    ensures Rank(keys, j) < Rank(keys, i)
  {
    PositionAtRank(keys, i);
    PositionAtRank(keys, j);
  }

  /** Every row of the group appears among its positions. */
  lemma {:induction false} InPositions<K>(keys: seq<K>, i: nat)
    requires i < |keys|
    ensures i in Positions(keys, keys[i])
  {
    PositionAtRank(keys, i);
  }

  /** Two rows of one group with the same rank are the same row. */
  lemma {:induction false} RankInjective<K>(keys: seq<K>, i: nat, j: nat)
    requires i < |keys| && j < |keys| && keys[i] == keys[j]
    requires Rank(keys, i) == Rank(keys, j)
    ensures i == j
  {
    PositionAtRank(keys, i);
    PositionAtRank(keys, j);
  }

  /** The first row of its group is the one of rank 0. */
  lemma {:induction false} FirstOfGroup<K>(keys: seq<K>, i: nat)
    requires i < |keys|
    ensures Rank(keys, i) == 0 <==> forall j :: 0 <= j < i ==> keys[j] != keys[i]
  {
    if Rank(keys, i) == 0 {
      PositionAtRank(keys, i);
      forall j | 0 <= j < i ensures keys[j] != keys[i] {
        if keys[j] == keys[i] {
          PositionAtRank(keys, j);
        }
      }
    } else {
      PositionAtRank(keys, i);
      var p := Positions(keys, keys[i]);
      assert p[0] < p[Rank(keys, i)];
      assert keys[p[0]] == keys[i];
    }
  }

  /**
   * The row whose value `groupby(key).transform(lambda x: x.iloc[::-1].values)`
   * hands to row `i`: the row at the mirrored position of the same group.
   */
  function Mirror<K(==)>(keys: seq<K>, i: nat): (j: nat)
    requires i < |keys|
    ensures j < |keys| && keys[j] == keys[i]
  {
    PositionAtRank(keys, i);
    var p := Positions(keys, keys[i]);
    p[|p| - 1 - Rank(keys, i)]
  }

  /** Reversing a group twice gives back every row. */
  lemma {:induction false} MirrorInvolution<K>(keys: seq<K>, i: nat)
    requires i < |keys|
    ensures Mirror(keys, Mirror(keys, i)) == i
  {
    var k := keys[i];
    var p := Positions(keys, k);
    PositionAtRank(keys, i);
    var m := |p| - 1 - Rank(keys, i);
    RankAtPosition(keys, k, m);
  }

  /**
   * In a group of exactly two rows the reversal is a swap: each row is paired
   * with the other one.
   */
  lemma {:induction false} MirrorOfPair<K>(keys: seq<K>, i: nat, j: nat)
    requires i < |keys| && j < |keys| && i != j && keys[i] == keys[j]
    requires Count(keys, keys[i]) == 2
    ensures Mirror(keys, i) == j && Mirror(keys, j) == i
  {
    var p := Positions(keys, keys[i]);
    var ri, rj := Rank(keys, i), Rank(keys, j);
    PositionAtRank(keys, i);
    PositionAtRank(keys, j);
    assert ri != rj by {
      if ri == rj {
        RankInjective(keys, i, j);
      }
    }
    assert p[ri] == i && p[rj] == j && ri + rj == 1;
    MirrorIs(keys, i);
    MirrorIs(keys, j);
  }

  /** Row `i`'s partner sits at the reversed rank among its group's positions. */
  lemma {:induction false} MirrorIs<K>(keys: seq<K>, i: nat)
    requires i < |keys|
    ensures Rank(keys, i) < Count(keys, keys[i])
    ensures Mirror(keys, i) == Positions(keys, keys[i])[Count(keys, keys[i]) - 1 - Rank(keys, i)]
  {
    PositionAtRank(keys, i);
  }

  /** The values of one group's rows, in table order. */
  function GroupValues<K(==), V>(keys: seq<K>, vals: seq<V>, k: K): (r: seq<V>)
    requires |vals| == |keys|
    ensures |r| == Count(keys, k)
    ensures forall j :: 0 <= j < |r| ==> r[j] == vals[Positions(keys, k)[j]]
  {
    var p := Positions(keys, k);
    seq(|p|, j requires 0 <= j < |p| => vals[p[j]])
  }

  /** The values of row `i`'s group that come before row `i`. */
  lemma {:induction false} GroupValuesBefore<K, V>(keys: seq<K>, vals: seq<V>, i: nat)
    requires |vals| == |keys| && i < |keys|
    ensures Rank(keys, i) < |GroupValues(keys, vals, keys[i])|
    ensures GroupValues(keys, vals, keys[i])[Rank(keys, i)] == vals[i]
  {
    PositionAtRank(keys, i);
  }

  /** `drop_duplicates(subset=key)`: the value of the first row of each group, in table order. */
  function FirstOfEach<K(==), V>(keys: seq<K>, vals: seq<V>): (r: seq<V>)
    requires |vals| == |keys|
    decreases |keys|
  {
    if |keys| == 0 then []
    else
      var n := |keys| - 1;
      FirstOfEach(keys[..n], vals[..n]) + (if keys[n] in keys[..n] then [] else [vals[n]])
  }

  /** The values kept are exactly those of the rows of rank 0. */
  lemma {:induction false} FirstOfEachMembers<K, V>(keys: seq<K>, vals: seq<V>)
    requires |vals| == |keys|
    ensures forall x :: x in FirstOfEach(keys, vals) <==> exists a :: 0 <= a < |keys| && Rank(keys, a) == 0 && x == vals[a]
    decreases |keys|
  {
    if |keys| > 0 {
      var n := |keys| - 1;
      var ks, vs := keys[..n], vals[..n];
      FirstOfEachMembers(ks, vs);
      forall a | 0 <= a < n ensures Rank(ks, a) == Rank(keys, a) && vs[a] == vals[a] {
        assert ks[..a] == keys[..a];
      }
      FirstOfGroup(keys, n);
      assert keys[n] in ks <==> Rank(keys, n) != 0;
    }
  }
}
