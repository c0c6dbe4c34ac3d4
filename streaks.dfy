/**
 * Form features of one fighter, computed over the fighter's results in
 * chronological order (`true` for a win): the current winning (or losing)
 * streak, the longest winning streak so far and the number of earlier wins by
 * one method.  Each function follows the pandas formulation step by step;
 * the lemmas relate it to a direct definition and state its properties.
 * Every feature is shifted by one place, so row `k` only sees rows `0 .. k-1`.
 */
module Streaks {
  import Groups

  /** The number of `true` entries. */
  function CountTrue(c: seq<bool>): nat
    decreases |c|
  {
    if |c| == 0 then 0 else CountTrue(c[..|c| - 1]) + (if c[|c| - 1] then 1 else 0)
  }

  /** `cumsum()` of a boolean column. */
  function CumSum(c: seq<bool>): (r: seq<nat>)
    ensures |r| == |c|
  {
    seq(|c|, k requires 0 <= k < |c| => CountTrue(c[..k + 1]))
  }

  /** `s.shift(1, fill_value=0)`: every value moves one place later; the first becomes 0. */
  function ShiftFill(s: seq<nat>): (r: seq<nat>)
    ensures |r| == |s|
    ensures |s| > 0 ==> r[0] == 0
    ensures forall k :: 0 < k < |s| ==> r[k] == s[k - 1]
  {
    if |s| == 0 then [] else [0] + s[..|s| - 1]
  }

  /**
   * `w != w.shift()`: true where a new run of equal results starts; the first
   * row always starts one, since its shifted value is null and compares unequal.
   */
  function RunStarts(w: seq<bool>): (r: seq<bool>)
    ensures |r| == |w|
  {
    seq(|w|, k requires 0 <= k < |w| => k == 0 || w[k] != w[k - 1])
  }

  /** `streak_group`: the number of the run each row belongs to. */
  function StreakGroup(w: seq<bool>): (r: seq<nat>)
    ensures |r| == |w|
  {
    CumSum(RunStarts(w))
  }

  /** The key `(is_win, streak_group)` that `running_streak` groups by. */
  function RunKeys(w: seq<bool>): (r: seq<(bool, nat)>)
    ensures |r| == |w|
  {
    var g := StreakGroup(w);
    seq(|w|, k requires 0 <= k < |w| => (w[k], g[k]))
  }

  /** `running_streak`: `groupby([is_win, streak_group]).cumcount() + 1`. */
  function RunningStreak(w: seq<bool>): (r: seq<nat>)
    ensures |r| == |w|
  {
    var keys := RunKeys(w);
    seq(|w|, k requires 0 <= k < |w| => Groups.Rank(keys, k) + 1)
  }

  /** `tmp_win_streak`: the running streak on wins, 0 on losses. */
  function RunOnTrue(w: seq<bool>): (r: seq<nat>)
    ensures |r| == |w|
  {
    var run := RunningStreak(w);
    seq(|w|, k requires 0 <= k < |w| => if w[k] then run[k] else 0)
  }

  /** `win_streak`: the shifted running streak of wins. */
  function CurrentStreak(w: seq<bool>): (r: seq<nat>)
    ensures |r| == |w|
    ensures |w| > 0 ==> r[0] == 0
  {
    ShiftFill(RunOnTrue(w))
  }

  /** The number of trailing `true` entries: the run of wins a history ends with. */
  function TrailingRun(s: seq<bool>): (n: nat)
    ensures n <= |s|
    decreases |s|
  {
    if |s| == 0 || !s[|s| - 1] then 0 else TrailingRun(s[..|s| - 1]) + 1
  }

  /** How many equal results end at row `k`, row `k` included. */
  function RunLength(w: seq<bool>, k: nat): (n: nat)
    requires k < |w|
    ensures 1 <= n <= k + 1
  {
    if k == 0 || w[k - 1] != w[k] then 1 else RunLength(w, k - 1) + 1
  }

  lemma {:induction false} CountTruePrefixMono(c: seq<bool>, i: nat, j: nat)
    requires i <= j <= |c|
    ensures CountTrue(c[..i]) <= CountTrue(c[..j])
    decreases j - i
  {
    if i < j {
      CountTruePrefixMono(c, i, j - 1);
      assert c[..j][..j - 1] == c[..j - 1];
    }
  }

  /** A streak group number grows by one exactly where a new run starts. */
  lemma {:induction false} StreakGroupStep(w: seq<bool>, k: nat)
    requires 0 < k < |w|
    ensures StreakGroup(w)[k] == StreakGroup(w)[k - 1] + (if w[k] != w[k - 1] then 1 else 0)
  {
    var c := RunStarts(w);
    assert c[..k + 1][..k] == c[..k];
  }

  lemma {:induction false} StreakGroupMono(w: seq<bool>, j: nat, k: nat)
    requires j <= k < |w|
    ensures StreakGroup(w)[j] <= StreakGroup(w)[k]
  {
    CountTruePrefixMono(RunStarts(w), j + 1, k + 1);
  }

  lemma {:induction false} CountAbsent<K>(s: seq<K>, x: K)
    requires forall j :: 0 <= j < |s| ==> s[j] != x
    ensures Groups.Count(s, x) == 0
    decreases |s|
  {
    if |s| > 0 {
      CountAbsent(s[..|s| - 1], x);
    }
  }

  /**
   * The pandas `running_streak` is the length of the run of equal results
   * ending at the row.
   */
  lemma {:induction false} RunningStreakIsRunLength(w: seq<bool>, k: nat)
    requires k < |w|
    ensures RunningStreak(w)[k] == RunLength(w, k)
  {
    var keys := RunKeys(w);
    var g := StreakGroup(w);
    if k == 0 {
    } else if w[k - 1] != w[k] {
      StreakGroupStep(w, k);
      forall j | 0 <= j < k ensures keys[..k][j] != keys[k] {
        StreakGroupMono(w, j, k - 1);
      }
      CountAbsent(keys[..k], keys[k]);
    } else {
      StreakGroupStep(w, k);
      RunningStreakIsRunLength(w, k - 1);
      assert keys[k] == keys[k - 1];
      assert keys[..k][..k - 1] == keys[..k - 1];
    }
  }

  /** The unshifted win streak at row `k` is the run of wins ending at row `k`. */
  lemma {:induction false} RunOnTrueIsTrailingRun(w: seq<bool>, k: nat)
    requires k < |w|
    ensures RunOnTrue(w)[k] == TrailingRun(w[..k + 1])
  {
    RunningStreakIsRunLength(w, k);
    assert w[..k + 1][..k] == w[..k];
    if w[k] && k > 0 && w[k - 1] == w[k] {
      RunOnTrueIsTrailingRun(w, k - 1);
      RunningStreakIsRunLength(w, k - 1);
    } else if w[k] && k > 0 {
      assert w[..k][k - 1] == w[k - 1];
    }
  }

  /**
   * `win_streak` on row `k` is the number of consecutive wins immediately
   * before row `k`; it is 0 on the debut row.
   */
  lemma {:induction false} CurrentStreakIsTrailingRun(w: seq<bool>, k: nat)
    requires k < |w|
    ensures CurrentStreak(w)[k] == TrailingRun(w[..k])
  {
    if k > 0 {
      RunOnTrueIsTrailingRun(w, k - 1);
    }
  }

  /** `is_loss`, the complement of `is_win` row by row. */
  function Not(w: seq<bool>): (r: seq<bool>)
    ensures |r| == |w|
    ensures forall k :: 0 <= k < |w| ==> r[k] == !w[k]
  {
    seq(|w|, k requires 0 <= k < |w| => !w[k])
  }

  /**
   * On every row after the debut exactly one of `win_streak` and `lose_streak`
   * is positive, the one matching the previous result.
   */
  lemma {:induction false} ExactlyOneStreak(w: seq<bool>, k: nat)
    requires 0 < k < |w|
    ensures w[k - 1] ==> CurrentStreak(w)[k] >= 1 && CurrentStreak(Not(w))[k] == 0
    ensures !w[k - 1] ==> CurrentStreak(w)[k] == 0 && CurrentStreak(Not(w))[k] >= 1
  {
    CurrentStreakIsTrailingRun(w, k);
    CurrentStreakIsTrailingRun(Not(w), k);
    assert Not(w)[..k][k - 1] == !w[k - 1];
    assert w[..k][k - 1] == w[k - 1];
  }

  /** The number of `true` entries of `flags` whose key is `key`. */
  function CountWhere(keys: seq<nat>, flags: seq<bool>, key: nat): nat
    requires |keys| == |flags|
    decreases |keys|
  {
    if |keys| == 0 then 0
    else
      var n := |keys| - 1;
      CountWhere(keys[..n], flags[..n], key) + (if keys[n] == key && flags[n] then 1 else 0)
  }

  /** `groupby(streak_group)['is_win'].cumsum().where(is_win, 0)`. */
  function RunWins(w: seq<bool>): (r: seq<nat>)
    ensures |r| == |w|
  {
    var g := StreakGroup(w);
    seq(|w|, k requires 0 <= k < |w| =>
      if w[k] then CountWhere(g[..k + 1], w[..k + 1], g[k]) else 0)
  }

  lemma {:induction false} CountWhereAbsent(keys: seq<nat>, flags: seq<bool>, key: nat)
    requires |keys| == |flags|
    requires forall j :: 0 <= j < |keys| ==> keys[j] != key
    ensures CountWhere(keys, flags, key) == 0
    decreases |keys|
  {
    if |keys| > 0 {
      CountWhereAbsent(keys[..|keys| - 1], flags[..|flags| - 1], key);
    }
  }

  /** Counting the wins of a streak group gives the length of that winning run. */
  lemma {:induction false} RunWinsIsRunLength(w: seq<bool>, k: nat)
    requires k < |w| && w[k]
    ensures CountWhere(StreakGroup(w)[..k + 1], w[..k + 1], StreakGroup(w)[k]) == RunLength(w, k)
  {
    var g := StreakGroup(w);
    assert g[..k + 1][..k] == g[..k];
    assert w[..k + 1][..k] == w[..k];
    if k == 0 {
      assert CountWhere(g[..0], w[..0], g[0]) == 0;
    } else if w[k - 1] != w[k] {
      StreakGroupStep(w, k);
      forall j | 0 <= j < k ensures g[..k][j] != g[k] {
        StreakGroupMono(w, j, k - 1);
      }
      CountWhereAbsent(g[..k], w[..k], g[k]);
    } else {
      StreakGroupStep(w, k);
      RunWinsIsRunLength(w, k - 1);
    }
  }

  /** Both pandas formulations of the unshifted win streak agree. */
  lemma {:induction false} RunWinsIsRunOnTrue(w: seq<bool>, k: nat)
    requires k < |w|
    ensures RunWins(w)[k] == RunOnTrue(w)[k]
  {
    if w[k] {
      RunWinsIsRunLength(w, k);
      RunningStreakIsRunLength(w, k);
    }
  }

  function Max(a: nat, b: nat): nat {
    if a < b then b else a
  }

  /** The largest entry of a sequence, 0 for the empty one. */
  function MaxOf(s: seq<nat>): nat
    decreases |s|
  {
    if |s| == 0 then 0 else Max(MaxOf(s[..|s| - 1]), s[|s| - 1])
  }

  /** `cummax()`. */
  function CumMax(s: seq<nat>): (r: seq<nat>)
    ensures |r| == |s|
  {
    seq(|s|, k requires 0 <= k < |s| => MaxOf(s[..k + 1]))
  }

  /** `longest_win_streak`: the shifted running maximum of the win streak. */
  function LongestStreak(w: seq<bool>): (r: seq<nat>)
    ensures |r| == |w|
    ensures |w| > 0 ==> r[0] == 0
  {
    ShiftFill(CumMax(RunWins(w)))
  }

  /** The longest run of `true` entries anywhere in `s`. */
  function LongestRun(s: seq<bool>): nat
    decreases |s|
  {
    if |s| == 0 then 0 else Max(LongestRun(s[..|s| - 1]), TrailingRun(s))
  }

  /** Every entry of `s[i..j]` is `true`. */
  predicate AllTrue(s: seq<bool>, i: nat, j: nat)
    requires i <= j <= |s|
  {
    forall m :: i <= m < j ==> s[m]
  }

  lemma {:induction false} TrailingRunIsRun(s: seq<bool>)
    ensures AllTrue(s, |s| - TrailingRun(s), |s|)
    decreases |s|
  {
    if |s| > 0 && s[|s| - 1] {
      TrailingRunIsRun(s[..|s| - 1]);
    }
  }

  lemma {:induction false} TrailingRunMaximal(s: seq<bool>, i: nat)
    requires i <= |s| && AllTrue(s, i, |s|)
    ensures |s| - i <= TrailingRun(s)
    decreases |s|
  {
    if i < |s| {
      TrailingRunMaximal(s[..|s| - 1], i);
    }
  }

  /** No run of wins in the history is longer than `LongestRun`. */
  lemma {:induction false} LongestRunBounds(s: seq<bool>, i: nat, j: nat)
    requires i <= j <= |s| && AllTrue(s, i, j)
    ensures j - i <= LongestRun(s)
    decreases |s|
  {
    if j == |s| {
      if |s| > 0 {
        TrailingRunMaximal(s, i);
      }
    } else {
      LongestRunBounds(s[..|s| - 1], i, j);
    }
  }

  /** `s` holds a run of `len` wins starting at position `i`. */
  predicate RunAt(s: seq<bool>, i: nat, len: nat) {
    i + len <= |s| && AllTrue(s, i, i + len)
  }

  /** Some run of wins in the history is exactly `LongestRun` long. */
  lemma {:induction false} LongestRunAttained(s: seq<bool>)
    ensures exists i :: RunAt(s, i, LongestRun(s))
    decreases |s|
  {
    if |s| == 0 {
      assert RunAt(s, 0, LongestRun(s));
    } else {
      var init := s[..|s| - 1];
      LongestRunAttained(init);
      if LongestRun(init) < TrailingRun(s) {
        TrailingRunIsRun(s);
        assert RunAt(s, |s| - TrailingRun(s), LongestRun(s));
      } else {
        var i :| RunAt(init, i, LongestRun(init));
        assert RunAt(s, i, LongestRun(s));
      }
    }
  }

  /** The running maximum of the unshifted win streak is the longest run so far. */
  lemma {:induction false} CumMaxIsLongestRun(w: seq<bool>, k: nat)
    requires k < |w|
    ensures CumMax(RunWins(w))[k] == LongestRun(w[..k + 1])
  {
    var r := RunWins(w);
    RunWinsIsRunOnTrue(w, k);
    RunOnTrueIsTrailingRun(w, k);
    assert r[..k + 1][..k] == r[..k];
    assert w[..k + 1][..k] == w[..k];
    assert CumMax(r)[k] == Max(MaxOf(r[..k]), r[k]);
    assert LongestRun(w[..k + 1]) == Max(LongestRun(w[..k]), TrailingRun(w[..k + 1]));
    if k > 0 {
      CumMaxIsLongestRun(w, k - 1);
      assert MaxOf(r[..k]) == CumMax(r)[k - 1];
    } else {
      assert MaxOf(r[..0]) == 0 && LongestRun(w[..0]) == 0;
    }
  }

  /**
   * `longest_win_streak` on row `k` is the longest run of wins among rows
   * `0 .. k-1`, and 0 on the debut row.
   */
  lemma {:induction false} LongestStreakIsLongestRun(w: seq<bool>, k: nat)
    requires k < |w|
    ensures LongestStreak(w)[k] == LongestRun(w[..k])
  {
    if k > 0 {
      CumMaxIsLongestRun(w, k - 1);
    }
  }

  lemma {:induction false} LongestRunMono(s: seq<bool>, i: nat)
    requires i <= |s|
    ensures LongestRun(s[..i]) <= LongestRun(s)
    decreases |s| - i
  {
    if i < |s| {
      LongestRunMono(s[..|s| - 1], i);
      assert s[..|s| - 1][..i] == s[..i];
    } else {
      assert s[..i] == s;
    }
  }

  /**
   * The longest streak never decreases along a fighter's fights and is never
   * below the current winning streak.
   */
  lemma {:induction false} LongestStreakProperties(w: seq<bool>, j: nat, k: nat)
    requires j <= k < |w|
    ensures LongestStreak(w)[j] <= LongestStreak(w)[k]
    ensures CurrentStreak(w)[k] <= LongestStreak(w)[k]
  {
    LongestStreakIsLongestRun(w, j);
    LongestStreakIsLongestRun(w, k);
    CurrentStreakIsTrailingRun(w, k);
    LongestRunMono(w[..k], j);
    assert w[..k][..j] == w[..j];
    var s := w[..k];
    if |s| > 0 {
      assert TrailingRun(s) <= LongestRun(s);
    }
  }

  /** Wins that carry a given method flag: `win_mask * finish_type_<M>`. */
  function WinsWith(w: seq<bool>, m: seq<bool>): (r: seq<bool>)
    requires |m| == |w|
    ensures |r| == |w|
  {
    seq(|w|, k requires 0 <= k < |w| => w[k] && m[k])
  }

  /** `wins_by_<M>`: the shifted cumulative count of wins by method `M`. */
  function WinsBy(w: seq<bool>, m: seq<bool>): (r: seq<nat>)
    requires |m| == |w|
    ensures |r| == |w|
    ensures |w| > 0 ==> r[0] == 0
  {
    ShiftFill(CumSum(WinsWith(w, m)))
  }

  /** `CountTrue` is the size of the set of `true` positions. */
  lemma {:induction false} CountTrueIsCard(c: seq<bool>)
    ensures CountTrue(c) == |set j | 0 <= j < |c| && c[j]|
    decreases |c|
  {
    if |c| > 0 {
      var n := |c| - 1;
      CountTrueIsCard(c[..n]);
      var before := set j | 0 <= j < n && c[..n][j];
      var all := set j | 0 <= j < |c| && c[j];
      if c[n] {
        assert all == before + {n};
      } else {
        assert all == before;
      }
    }
  }

  /**
   * `wins_by_<M>` on row `k` counts exactly the rows before `k` that are wins
   * carrying flag `M`; it is 0 on the debut row.
   */
  lemma {:induction false} WinsByCountsEarlierWins(w: seq<bool>, m: seq<bool>, k: nat)
    requires |m| == |w| && k < |w|
    ensures WinsBy(w, m)[k] == |set j | 0 <= j < k && w[j] && m[j]|
  {
    var c := WinsWith(w, m);
    if k > 0 {
      assert WinsBy(w, m)[k] == CountTrue(c[..k]);
    }
    CountTrueIsCard(c[..k]);
    assert (set j | 0 <= j < k && c[..k][j]) == (set j | 0 <= j < k && w[j] && m[j]);
  }

  /** `wins_by_<M>` never decreases along a fighter's rows. */
  lemma {:induction false} WinsByMono(w: seq<bool>, m: seq<bool>, j: nat, k: nat)
    requires |m| == |w| && j <= k < |w|
    ensures WinsBy(w, m)[j] <= WinsBy(w, m)[k]
  {
    var c := WinsWith(w, m);
    if j > 0 {
      CountTruePrefixMono(c, j, k);
    }
  }

  /** `wins_by_<M>` never decreases and grows by at most one per fight. */
  lemma {:induction false} WinsByStep(w: seq<bool>, m: seq<bool>, k: nat)
    requires |m| == |w| && 0 < k < |w|
    ensures WinsBy(w, m)[k - 1] <= WinsBy(w, m)[k] <= WinsBy(w, m)[k - 1] + 1
    ensures WinsBy(w, m)[k] == WinsBy(w, m)[k - 1] + (if w[k - 1] && m[k - 1] then 1 else 0)
  {
    var c := WinsWith(w, m);
    var cs := CumSum(c);
    assert c[..k][..k - 1] == c[..k - 1];
    assert CountTrue(c[..k]) == CountTrue(c[..k - 1]) + (if c[k - 1] then 1 else 0);
    assert WinsBy(w, m)[k] == cs[k - 1] == CountTrue(c[..k]);
    if k > 1 {
      assert WinsBy(w, m)[k - 1] == cs[k - 2] == CountTrue(c[..k - 1]);
    } else {
      assert WinsBy(w, m)[k - 1] == 0 == CountTrue(c[..k - 1]);
    }
  }
}
