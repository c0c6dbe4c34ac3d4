/**
 * What the feature pipeline guarantees, stage by stage: the opponent mirror
 * swaps the two rows of a fight, an average only looks at the fighter's
 * earlier fights, rates are guarded ratios, deltas are antisymmetric, whole
 * fights are dropped, the form features count the right earlier fights, and
 * the wide table holds exactly the fights that have a red and a blue row.
 */
module FeatureProperties {
  import opened Wrappers
  import opened Chrono
  import Groups
  import Ewma
  import Streaks
  import opened FeatureEngineering

  // ---------------------------------------------------------------------
  // Opponent mirror
  // ---------------------------------------------------------------------

  /** The four columns the mirror stage writes. */
  predicate MirroredMetric(m: Metric) {
    m == SigStrAbsorbed || m == SigStrReceived || m == TdAbsorbed || m == TdReceived
  }

  /**
   * Row `i` takes its four opponent columns from row `o`, the row at the
   * reversed position of its fight group, and keeps everything else.
   */
  lemma {:induction false} MirrorAt(t: seq<FightRow>, i: nat) returns (o: nat)
    requires i < |t|
    ensures o == Groups.Mirror(FightIds(t), i)
    ensures o < |t| && t[o].bout.fightId == t[i].bout.fightId
    ensures var r := MirrorAbsorbReceive(t);
      r[i].bout == t[i].bout && r[i].fighterId == t[i].fighterId
      && r[i].stats(SigStrAbsorbed) == t[o].stats(SigStrLanded)
      && r[i].stats(SigStrReceived) == t[o].stats(SigStrAttempted)
      && r[i].stats(TdAbsorbed) == t[o].stats(TdLanded)
      && r[i].stats(TdReceived) == t[o].stats(TdAttempted)
      && (forall m :: !MirroredMetric(m) ==> r[i].stats(m) == t[i].stats(m))
    ensures MirrorAbsorbReceive(t)[i].stats == WithOpponent(t[i].stats, t[o].stats)
  {
    o := Groups.Mirror(FightIds(t), i);
    assert MirrorAbsorbReceive(t)[i] == t[i].(stats := WithOpponent(t[i].stats, t[o].stats));
    WithOpponentCounts(t[i].stats, t[o].stats);
    WithOpponentKeeps(t[i].stats, t[o].stats);
  }

  /**
   * In a fight of exactly two rows, each row's absorbed and received counts
   * are the other row's landed and attempted counts; nothing else changes.
   */
  lemma {:induction false} MirrorSwapsPair(t: seq<FightRow>, i: nat, j: nat)
    requires i < |t| && j < |t| && i != j
    requires t[i].bout.fightId == t[j].bout.fightId
    requires Groups.Count(FightIds(t), t[i].bout.fightId) == 2
    ensures var r := MirrorAbsorbReceive(t);
      r[i].bout == t[i].bout && r[i].fighterId == t[i].fighterId
      && r[i].stats(SigStrAbsorbed) == t[j].stats(SigStrLanded)
      && r[i].stats(SigStrReceived) == t[j].stats(SigStrAttempted)
      && r[i].stats(TdAbsorbed) == t[j].stats(TdLanded)
      && r[i].stats(TdReceived) == t[j].stats(TdAttempted)
      && (forall m :: !MirroredMetric(m) ==> r[i].stats(m) == t[i].stats(m))
  {
    Groups.MirrorOfPair(FightIds(t), i, j);
    var o := MirrorAt(t, i);
  }

  // ---------------------------------------------------------------------
  // Order within a fighter's rows
  // ---------------------------------------------------------------------

  /**
   * In a table sorted by (fighter, date, fight), the rows of a fighter that
   * come before row `i` in its group are at earlier positions with keys at
   * most row `i`'s, and every row of the fighter whose key is below row `i`'s
   * comes before it in the group.
   */
  lemma {:induction false} EarlierInGroup<T>(s: seq<T>, key: T -> SortKey, ids: seq<string>, i: nat)
    requires SortedBy(s, key) && |ids| == |s| && i < |s|
    requires forall j :: 0 <= j < |s| ==> ids[j] == key(s[j]).fighter
    ensures var p := Groups.Positions(ids, ids[i]);
      Groups.Rank(ids, i) < |p|
      && forall q :: 0 <= q < Groups.Rank(ids, i) ==> p[q] < i && KeyLe(key(s[p[q]]), key(s[i]))
    ensures forall j :: 0 <= j < |s| && ids[j] == ids[i] && KeyLt(key(s[j]), key(s[i])) ==>
      Groups.Rank(ids, j) < Groups.Rank(ids, i)
  {
    Groups.PositionAtRank(ids, i);
    forall j | 0 <= j < |s| && ids[j] == ids[i] && KeyLt(key(s[j]), key(s[i]))
      ensures Groups.Rank(ids, j) < Groups.Rank(ids, i)
    {
      KeyLeNotGt(key(s[i]), key(s[j]));
      Groups.RankMonotone(ids, j, i);
    }
  }

  // ---------------------------------------------------------------------
  // Causal averages
  // ---------------------------------------------------------------------

  /**
   * `avg_<m>` of a row is null on the fighter's first row and otherwise the
   * adjusted span-5 mean of the fighter's values on the rows before it.
   */
  lemma {:induction false} AvgIsMeanOfEarlier(s: seq<FightRow>, i: nat, m: Metric)
    requires i < |s|
    ensures var k := Groups.Rank(FighterIds(s), i);
      var h := History(s, s[i].fighterId, m);
      k < |h| && h[k] == s[i].stats(m)
      && (k == 0 ==> AvgOf(s, i, m) == None)
      && (k > 0 ==> AvgOf(s, i, m) == Some(Ewma.Mean(h[..k])))
  {
    var ids := FighterIds(s);
    Groups.PositionAtRank(ids, i);
    Ewma.CausalIsMeanOfEarlier(History(s, s[i].fighterId, m), Groups.Rank(ids, i));
  }

  /**
   * No look-ahead: two tables with the same fighters in the same places whose
   * values agree on the fighter's rows before row `i` give row `i` the same
   * average, whatever row `i` and the later rows hold.
   */
  lemma {:induction false} AvgNoLookAhead(s: seq<FightRow>, s': seq<FightRow>, i: nat, m: Metric)
    requires i < |s| && FighterIds(s) == FighterIds(s')
    requires forall p :: (0 <= p < |s| && s[p].fighterId == s[i].fighterId
      && Groups.Rank(FighterIds(s), p) < Groups.Rank(FighterIds(s), i)) ==> s[p].stats(m) == s'[p].stats(m)
    ensures AvgOf(s, i, m) == AvgOf(s', i, m)
  {
    var ids := FighterIds(s);
    var f := s[i].fighterId;
    var k := Groups.Rank(ids, i);
    var h := History(s, f, m);
    var h' := History(s', f, m);
    Groups.PositionAtRank(ids, i);
    forall q | 0 <= q < k ensures h[q] == h'[q] {
      Groups.RankAtPosition(ids, f, q);
    }
    assert h[..k] == h'[..k];
    Ewma.CausalNoLookAhead(h, h', k);
  }

  /** The key the averaging stage sorts by, on the rows it produces. */
  function AvgKey(r: AvgRow): SortKey {
    SortKey(r.fighterId, r.bout.eventDate, r.bout.fightId)
  }

  /** The averaging stage leaves the table sorted by (fighter, date, fight). */
  lemma {:induction false} AveragesSorted(t: seq<FightRow>)
    ensures SortedBy(WithAverages(t), AvgKey)
  {
    var s := Sort(t, ChronoKey);
    SortSorted(t, ChronoKey);
    var out := WithAverages(t);
    forall a, b | 0 <= a < b < |out| ensures KeyLe(AvgKey(out[a]), AvgKey(out[b])) {
      assert AvgKey(out[a]) == ChronoKey(s[a]) && AvgKey(out[b]) == ChronoKey(s[b]);
    }
  }

  /**
   * The averaging stage: on a fighter's first row every average is null, on
   * a later row it is the mean over the fighter's rows before it, which are
   * exactly the fighter's rows with a smaller key (rows with an equal key
   * would repeat the (fight, fighter) pair).
   */
  lemma {:induction false} AveragesAreCausal(t: seq<FightRow>, i: nat, m: Metric)
    requires i < |t|
    ensures var s := Sort(t, ChronoKey); var ids := FighterIds(s);
      var k := Groups.Rank(ids, i); var p := Groups.Positions(ids, s[i].fighterId);
      var r := WithAverages(t)[i];
      k < |p| && r.bout == s[i].bout && r.fighterId == s[i].fighterId && r.totalDuration == s[i].stats(TotalDuration)
      && (k == 0 ==> r.avg(m) == None)
      && (k > 0 ==> r.avg(m) == Some(Ewma.Mean(History(s, s[i].fighterId, m)[..k])))
      && (forall q :: 0 <= q < k ==> p[q] < i && KeyLe(ChronoKey(s[p[q]]), ChronoKey(s[i])))
      && (forall j :: 0 <= j < |s| && s[j].fighterId == s[i].fighterId && KeyLt(ChronoKey(s[j]), ChronoKey(s[i]))
            ==> Groups.Rank(ids, j) < k)
  {
    var s := Sort(t, ChronoKey);
    SortSorted(t, ChronoKey);
    assert WithAverages(t)[i].avg(m) == AvgOf(s, i, m);
    AvgIsMeanOfEarlier(s, i, m);
    EarlierInGroup(s, ChronoKey, FighterIds(s), i);
  }

  // ---------------------------------------------------------------------
  // Rates
  // ---------------------------------------------------------------------

  /**
   * The null guards of the rate stage: an accuracy or efficiency ratio is
   * present exactly when its denominator is present and positive, and is
   * then the quotient.
   */
  lemma {:induction false} AccuracyGuards(a: Metric -> Option<real>)
    ensures var acc := RateOf(a, StrAcc);
      (acc.Some? <==> a(SigStrLanded).Some? && a(SigStrAttempted).Some? && a(SigStrAttempted).value > 0.0)
      && (acc.Some? ==> acc.value == a(SigStrLanded).value / a(SigStrAttempted).value)
    ensures var acc := RateOf(a, TDacc);
      (acc.Some? <==> a(TdLanded).Some? && a(TdAttempted).Some? && a(TdAttempted).value > 0.0)
      && (acc.Some? ==> acc.value == a(TdLanded).value / a(TdAttempted).value)
    ensures var eff := RateOf(a, StrEff);
      (eff.Some? <==> a(SigStrLanded).Some? && a(TotStrLanded).Some? && a(TotStrLanded).value > 0.0)
      && (eff.Some? ==> eff.value == a(SigStrLanded).value / a(TotStrLanded).value)
  {
  }

  /** A defence ratio: present exactly when the received count is present and positive, then (received - absorbed) / received. */
  lemma {:induction false} DefenceGuards(a: Metric -> Option<real>)
    ensures var def := RateOf(a, StrDef);
      (def.Some? <==> a(SigStrAbsorbed).Some? && a(SigStrReceived).Some? && a(SigStrReceived).value > 0.0)
      && (def.Some? ==> def.value == (a(SigStrReceived).value - a(SigStrAbsorbed).value) / a(SigStrReceived).value)
    ensures var def := RateOf(a, TDdef);
      (def.Some? <==> a(TdAbsorbed).Some? && a(TdReceived).Some? && a(TdReceived).value > 0.0)
      && (def.Some? ==> def.value == (a(TdReceived).value - a(TdAbsorbed).value) / a(TdReceived).value)
  {
  }

  /** A per-minute rate divides by duration / 60 and a per-fifteen-minute rate by duration / 900; a zero duration gives None. */
  lemma {:induction false} DurationGuards(a: Metric -> Option<real>)
    ensures var slpm := RateOf(a, SLpM);
      (slpm.Some? <==> a(SigStrLanded).Some? && a(TotalDuration).Some? && a(TotalDuration).value != 0.0)
      && (slpm.Some? ==> slpm.value == a(SigStrLanded).value / (a(TotalDuration).value / 60.0))
    ensures var tdavg := RateOf(a, TDavg);
      (tdavg.Some? <==> a(TdLanded).Some? && a(TotalDuration).Some? && a(TotalDuration).value != 0.0)
      && (tdavg.Some? ==> tdavg.value == a(TdLanded).value / (a(TotalDuration).value / 900.0))
  {
  }

  /** Both columns of a row are counts, the first at most the second. */
  predicate Bounded(r: FightRow, lo: Metric, hi: Metric) {
    0.0 <= r.stats(lo) <= r.stats(hi)
  }

  /** A nullable rate that, when present, lies in [0, 1]. */
  predicate InUnit(x: Option<real>) {
    x.Some? ==> 0.0 <= x.value <= 1.0
  }

  lemma {:induction false} UnitRatios(l: real, h: real)
    requires 0.0 <= l <= h
    ensures InUnit(DivIfPositive(Some(l), Some(h)))
    ensures InUnit(DivIfPositive(Minus(Some(h), Some(l)), Some(h)))
  {
    if h > 0.0 {
      assert l / h <= 1.0 by {
        assert l / h * h == l;
      }
      assert (h - l) / h <= 1.0 by {
        assert (h - l) / h * h == h - l;
      }
    }
  }

  /** Pointwise ordered non-negative histories have ordered non-negative means. */
  lemma {:induction false} MeansOrdered(x: seq<real>, y: seq<real>, k: nat)
    requires |x| == |y| && 0 < k <= |x|
    requires forall q :: 0 <= q < |x| ==> 0.0 <= x[q] <= y[q]
    ensures 0.0 <= Ewma.Mean(x[..k]) <= Ewma.Mean(y[..k])
  {
    var z := seq(k, _ => 0.0);
    Ewma.MeanConstant(z, 0.0);
    Ewma.MeanMono(z, x[..k]);
    Ewma.MeanMono(x[..k], y[..k]);
  }

  /**
   * When every row has `0 <= lo <= hi`, the two averages of a row are both
   * null or both present, and then `0 <= avg_lo <= avg_hi`.
   */
  lemma {:induction false} AveragesBounded(s: seq<FightRow>, i: nat, lo: Metric, hi: Metric)
    requires i < |s|
    requires forall j :: 0 <= j < |s| ==> Bounded(s[j], lo, hi)
    ensures AvgOf(s, i, lo).Some? <==> AvgOf(s, i, hi).Some?
    ensures AvgOf(s, i, lo).Some? ==> 0.0 <= AvgOf(s, i, lo).value <= AvgOf(s, i, hi).value
  {
    AvgIsMeanOfEarlier(s, i, lo);
    AvgIsMeanOfEarlier(s, i, hi);
    var f := s[i].fighterId;
    var k := Groups.Rank(FighterIds(s), i);
    var x := History(s, f, lo);
    var y := History(s, f, hi);
    if k > 0 {
      var p := Groups.Positions(FighterIds(s), f);
      forall q | 0 <= q < |x| ensures 0.0 <= x[q] <= y[q] {
        assert Bounded(s[p[q]], lo, hi);
      }
      MeansOrdered(x, y, k);
    }
  }

  /** All four count pairs of a row are ordered. */
  predicate CountsOrdered(r: FightRow) {
    Bounded(r, SigStrLanded, SigStrAttempted) && Bounded(r, TdLanded, TdAttempted)
    && Bounded(r, SigStrAbsorbed, SigStrReceived) && Bounded(r, TdAbsorbed, TdReceived)
  }

  /** Two averages that are both null or both present, in order when present. */
  predicate AvgOrdered(a: Metric -> Option<real>, lo: Metric, hi: Metric) {
    (a(lo).Some? <==> a(hi).Some?) && (a(lo).Some? ==> 0.0 <= a(lo).value <= a(hi).value)
  }

  lemma {:induction false} RatesInUnit(a: Metric -> Option<real>)
    requires AvgOrdered(a, SigStrLanded, SigStrAttempted) && AvgOrdered(a, TdLanded, TdAttempted)
    requires AvgOrdered(a, SigStrAbsorbed, SigStrReceived) && AvgOrdered(a, TdAbsorbed, TdReceived)
    ensures InUnit(RateOf(a, StrAcc)) && InUnit(RateOf(a, TDacc))
    ensures InUnit(RateOf(a, StrDef)) && InUnit(RateOf(a, TDdef))
  {
    if a(SigStrLanded).Some? {
      UnitRatios(a(SigStrLanded).value, a(SigStrAttempted).value);
    }
    if a(TdLanded).Some? {
      UnitRatios(a(TdLanded).value, a(TdAttempted).value);
    }
    if a(SigStrAbsorbed).Some? {
      UnitRatios(a(SigStrAbsorbed).value, a(SigStrReceived).value);
    }
    if a(TdAbsorbed).Some? {
      UnitRatios(a(TdAbsorbed).value, a(TdReceived).value);
    }
  }

  /** The mirror stage carries ordered own counts over to ordered opponent counts. */
  lemma {:induction false} MirrorKeepsCountsOrdered(t: seq<FightRow>)
    requires forall j :: 0 <= j < |t| ==>
      Bounded(t[j], SigStrLanded, SigStrAttempted) && Bounded(t[j], TdLanded, TdAttempted)
    ensures forall j :: 0 <= j < |MirrorAbsorbReceive(t)| ==> CountsOrdered(MirrorAbsorbReceive(t)[j])
  {
    forall j | 0 <= j < |t| ensures CountsOrdered(MirrorAbsorbReceive(t)[j]) {
      MirrorRowOrdered(t, j);
    }
  }

  lemma {:induction false} MirrorRowOrdered(t: seq<FightRow>, j: nat)
    requires j < |t|
    requires forall j :: 0 <= j < |t| ==>
      Bounded(t[j], SigStrLanded, SigStrAttempted) && Bounded(t[j], TdLanded, TdAttempted)
    ensures CountsOrdered(MirrorAbsorbReceive(t)[j])
  {
    var o := MirrorAt(t, j);
    WithOpponentCounts(t[j].stats, t[o].stats);
    RowCountsOrdered(MirrorAbsorbReceive(t)[j], t[j], t[o]);
  }

  /** `WithOpponent(a, b)` keeps `a`'s own counts and takes `b`'s as the opponent counts. */
  lemma {:induction false} WithOpponentCounts(a: Stats, b: Stats)
    ensures var s := WithOpponent(a, b);
      s(SigStrLanded) == a(SigStrLanded) && s(SigStrAttempted) == a(SigStrAttempted)
      && s(TdLanded) == a(TdLanded) && s(TdAttempted) == a(TdAttempted)
      && s(SigStrAbsorbed) == b(SigStrLanded) && s(SigStrReceived) == b(SigStrAttempted)
      && s(TdAbsorbed) == b(TdLanded) && s(TdReceived) == b(TdAttempted)
  {
  }

  /** `WithOpponent(a, b)` agrees with `a` on every column other than the four opponent ones. */
  lemma {:induction false} WithOpponentKeeps(a: Stats, b: Stats)
    ensures forall m :: !MirroredMetric(m) ==> WithOpponent(a, b)(m) == a(m)
  {
  }

  /** A row whose own counts are those of `a` and whose opponent counts are the own counts of `b`. */
  lemma {:induction false} RowCountsOrdered(r: FightRow, a: FightRow, b: FightRow)
    requires Bounded(a, SigStrLanded, SigStrAttempted) && Bounded(a, TdLanded, TdAttempted)
    requires Bounded(b, SigStrLanded, SigStrAttempted) && Bounded(b, TdLanded, TdAttempted)
    requires r.stats(SigStrLanded) == a.stats(SigStrLanded) && r.stats(SigStrAttempted) == a.stats(SigStrAttempted)
    requires r.stats(TdLanded) == a.stats(TdLanded) && r.stats(TdAttempted) == a.stats(TdAttempted)
    requires r.stats(SigStrAbsorbed) == b.stats(SigStrLanded) && r.stats(SigStrReceived) == b.stats(SigStrAttempted)
    requires r.stats(TdAbsorbed) == b.stats(TdLanded) && r.stats(TdReceived) == b.stats(TdAttempted)
    ensures CountsOrdered(r)
  {
  }

  /** Sorting keeps every row, so a property of every row survives it. */
  lemma {:induction false} SortKeepsCountsOrdered(u: seq<FightRow>)
    requires forall j :: 0 <= j < |u| ==> CountsOrdered(u[j])
    ensures forall j :: 0 <= j < |Sort(u, ChronoKey)| ==> CountsOrdered(Sort(u, ChronoKey)[j])
  {
    var s := Sort(u, ChronoKey);
    forall j | 0 <= j < |s| ensures CountsOrdered(s[j]) {
      assert s[j] in multiset(s);
      assert s[j] in u;
    }
  }

  /** The averages of row `i` of the averaging stage's output. */
  lemma {:induction false} AvgRowIs(u: seq<FightRow>, i: nat)
    requires i < |u|
    ensures forall m :: WithAverages(u)[i].avg(m) == AvgOf(Sort(u, ChronoKey), i, m)
  {
  }

  /** Ordered counts on every row give ordered averages on every row. */
  lemma {:induction false} AvgRowOrdered(u: seq<FightRow>, i: nat)
    requires i < |u|
    requires forall j :: 0 <= j < |u| ==> CountsOrdered(u[j])
    ensures var a := WithAverages(u)[i].avg;
      AvgOrdered(a, SigStrLanded, SigStrAttempted) && AvgOrdered(a, TdLanded, TdAttempted)
      && AvgOrdered(a, SigStrAbsorbed, SigStrReceived) && AvgOrdered(a, TdAbsorbed, TdReceived)
  {
    SortKeepsCountsOrdered(u);
    var s := Sort(u, ChronoKey);
    AveragesBounded(s, i, SigStrLanded, SigStrAttempted);
    AveragesBounded(s, i, TdLanded, TdAttempted);
    AveragesBounded(s, i, SigStrAbsorbed, SigStrReceived);
    AveragesBounded(s, i, TdAbsorbed, TdReceived);
    AvgRowIs(u, i);
  }

  /**
   * If every fight row has at most as many landed as attempted strikes and
   * takedowns, every accuracy and defence rate the pipeline computes is null
   * or lies in [0, 1].
   */
  lemma {:induction false} GuardedRatiosWithinUnit(t: seq<FightRow>, i: nat)
    requires i < |t|
    requires forall j :: 0 <= j < |t| ==>
      Bounded(t[j], SigStrLanded, SigStrAttempted) && Bounded(t[j], TdLanded, TdAttempted)
    ensures var a := WithAverages(MirrorAbsorbReceive(t))[i].avg;
      InUnit(RateOf(a, StrAcc)) && InUnit(RateOf(a, TDacc))
      && InUnit(RateOf(a, StrDef)) && InUnit(RateOf(a, TDdef))
  {
    MirrorKeepsCountsOrdered(t);
    AvgRowOrdered(MirrorAbsorbReceive(t), i);
    RatesInUnit(WithAverages(MirrorAbsorbReceive(t))[i].avg);
  }

  // ---------------------------------------------------------------------
  // Deltas
  // ---------------------------------------------------------------------

  /**
   * Within a fight of two rows, each row's `delta_*` is its rate minus the
   * other row's, so the two rows' deltas (and their `net_str_eff`) are
   * opposite.
   */
  lemma {:induction false} DeltaAntisymmetric(t: seq<AvgRow>, i: nat, j: nat)
    requires i < |t| && j < |t| && i != j
    requires t[i].bout.fightId == t[j].bout.fightId
    requires Groups.Count(AvgFightIds(t), t[i].bout.fightId) == 2
    ensures var r := Rates(t);
      (forall k :: r[i].delta(k) == Minus(r[i].w(k), r[j].w(k)))
      && (forall k :: r[i].delta(k) == Neg(r[j].delta(k)))
      && r[i].netStrEff == Minus(NetStriking(r[i].w), NetStriking(r[j].w))
      && r[i].netStrEff == Neg(r[j].netStrEff)
  {
    Groups.MirrorOfPair(AvgFightIds(t), i, j);
    var a, b := RatesAt(t, i), RatesAt(t, j);
    assert Rates(t)[i] == a && Rates(t)[j] == b;
    forall k ensures a.delta(k) == Minus(a.w(k), b.w(k)) && a.delta(k) == Neg(b.delta(k)) {
      var x, y := RateOf(t[i].avg, k), RateOf(t[j].avg, k);
      assert a.w(k) == x && b.w(k) == y;
      assert a.delta(k) == Minus(x, y) && b.delta(k) == Minus(y, x);
      MinusAntisymmetric(x, y);
    }
    MinusAntisymmetric(NetStriking(a.w), NetStriking(b.w));
  }

  lemma {:induction false} MinusAntisymmetric(x: Option<real>, y: Option<real>)
    ensures Minus(x, y) == Neg(Minus(y, x))
  {
  }

  // ---------------------------------------------------------------------
  // Whole-fight exclusions and row order
  // ---------------------------------------------------------------------

  /** Every row of `fight` in `t` satisfies `ok`. */
  predicate FightAll(t: seq<ProfiledRow>, fight: string, ok: ProfiledRow -> bool) {
    forall j :: 0 <= j < |t| && FightIdOf(t[j]) == fight ==> ok(t[j])
  }

  function HasDob(r: ProfiledRow): bool {
    r.dob.Some?
  }

  /**
   * Dropping the fights that have a `bad` row keeps a row exactly when no
   * row of its fight is bad, and keeps nothing else.
   */
  lemma {:induction false} DropWhereKeeps(u: seq<ProfiledRow>, bad: ProfiledRow -> bool)
    ensures forall i :: 0 <= i < |u| ==>
      (u[i] in DropFights(u, FightsWhere(u, bad)) <==> FightAll(u, FightIdOf(u[i]), r => !bad(r)))
    ensures forall x :: x in DropFights(u, FightsWhere(u, bad)) ==> !bad(x) && x in u
  {
    var ids := FightsWhere(u, bad);
    forall i | 0 <= i < |u|
      ensures u[i] in DropFights(u, ids) <==> FightAll(u, FightIdOf(u[i]), r => !bad(r))
    {
      if !FightAll(u, FightIdOf(u[i]), r => !bad(r)) {
        var j :| 0 <= j < |u| && FightIdOf(u[j]) == FightIdOf(u[i]) && bad(u[j]);
      }
    }
    forall x | x in DropFights(u, ids) ensures !bad(x) {
      var i :| 0 <= i < |u| && u[i] == x;
    }
  }

  /** Neither defaulting the stance nor encoding changes a row's fight, fighter or date. */
  lemma {:induction false} RewritesKeepKey(r: ProfiledRow)
    ensures FillStance(r).rate == r.rate && FillStance(r).dob == r.dob
    ensures EncodeRow(r).rate.fighterId == r.rate.fighterId
    ensures EncodeRow(r).rate.bout.fightId == r.rate.bout.fightId
    ensures EncodeRow(r).rate.bout.eventDate == r.rate.bout.eventDate
    ensures EncodeRow(r).dob == r.dob
  {
  }

  /**
   * `handle_NaNs`: the stance defaults to Orthodox, and a row survives
   * exactly when every row of its fight has a date of birth; nothing else
   * is kept.
   */
  lemma {:induction false} HandleNullsDropsWholeFights(t: seq<ProfiledRow>)
    ensures forall i :: 0 <= i < |t| ==>
      (FillStance(t[i]) in HandleNulls(t) <==> FightAll(t, FightIdOf(t[i]), HasDob))
    ensures forall x :: x in HandleNulls(t) ==>
      x.dob.Some? && x.stance.Some? && exists i :: 0 <= i < |t| && x == FillStance(t[i])
  {
    var filled := seq(|t|, i requires 0 <= i < |t| => FillStance(t[i]));
    DropWhereKeeps(filled, HasNullDob);
    forall i | 0 <= i < |t|
      ensures FillStance(t[i]) in HandleNulls(t) <==> FightAll(t, FightIdOf(t[i]), HasDob)
    {
      assert filled[i] == FillStance(t[i]);
      forall j | 0 <= j < |t| ensures filled[j].rate == t[j].rate && filled[j].dob == t[j].dob {
        RewritesKeepKey(t[j]);
      }
    }
    forall x | x in HandleNulls(t) ensures exists i :: 0 <= i < |t| && x == FillStance(t[i]) {
      var i :| 0 <= i < |filled| && filled[i] == x;
    }
  }

  /**
   * `encode_categorical_columns`: a row survives, encoded, exactly when no
   * row of its fight carries an excluding dummy.
   */
  lemma {:induction false} EncodeDropsWholeFights(t: seq<ProfiledRow>)
    ensures forall i :: 0 <= i < |t| ==>
      (EncodeRow(t[i]) in EncodeCategorical(t) <==> FightAll(t, FightIdOf(t[i]), r => !Excluded(EncodeRow(r))))
  {
    var enc := seq(|t|, i requires 0 <= i < |t| => EncodeRow(t[i]));
    DropWhereKeeps(enc, Excluded);
    forall i | 0 <= i < |t|
      ensures EncodeRow(t[i]) in EncodeCategorical(t) <==> FightAll(t, FightIdOf(t[i]), r => !Excluded(EncodeRow(r)))
    {
      assert enc[i] == EncodeRow(t[i]);
      forall j | 0 <= j < |t| ensures enc[j] == EncodeRow(t[j]) && FightIdOf(enc[j]) == FightIdOf(t[j]) {
        RewritesKeepKey(t[j]);
      }
    }
  }

  /** Every row the encoding stage keeps is an encoded input row with no excluding dummy. */
  lemma {:induction false} EncodeKeepsOnlyEncodedRows(t: seq<ProfiledRow>)
    ensures forall x :: x in EncodeCategorical(t) ==>
      !Excluded(x) && exists i :: 0 <= i < |t| && x == EncodeRow(t[i])
  {
    var enc := seq(|t|, i requires 0 <= i < |t| => EncodeRow(t[i]));
    DropWhereKeeps(enc, Excluded);
    forall x | x in EncodeCategorical(t)
      ensures !Excluded(x) && exists i :: 0 <= i < |t| && x == EncodeRow(t[i])
    {
      assert x in DropFights(enc, FightsWhere(enc, Excluded));
      var i :| 0 <= i < |enc| && enc[i] == x;
    }
  }

  function RateKey(r: RateRow): SortKey {
    SortKey(r.fighterId, r.bout.eventDate, r.bout.fightId)
  }

  function ProfiledKey(r: ProfiledRow): SortKey {
    RateKey(r.rate)
  }

  /** Dropping rows keeps the remaining rows in their order. */
  lemma {:induction false} DropFightsSorted(t: seq<ProfiledRow>, ids: set<string>)
    requires SortedBy(t, ProfiledKey)
    ensures SortedBy(DropFights(t, ids), ProfiledKey)
    decreases |t|
  {
    if |t| > 0 {
      var rest := DropFights(t[1..], ids);
      assert SortedBy(t[1..], ProfiledKey);
      DropFightsSorted(t[1..], ids);
      forall j | 0 <= j < |rest| ensures KeyLe(ProfiledKey(t[0]), ProfiledKey(rest[j])) {
        var k :| 0 <= k < |t[1..]| && t[1..][k] == rest[j];
        assert t[1..][k] == t[k + 1];
      }
    }
  }

  /** A row-by-row rewrite that keeps every key keeps the table sorted. */
  lemma {:induction false} MapKeepsOrder(t: seq<ProfiledRow>, u: seq<ProfiledRow>)
    requires SortedBy(t, ProfiledKey) && |u| == |t|
    requires forall i :: 0 <= i < |t| ==> ProfiledKey(u[i]) == ProfiledKey(t[i])
    ensures SortedBy(u, ProfiledKey)
  {
  }

  /** The rate and profile stages keep the averaging stage's order. */
  lemma {:induction false} RatesJoinSorted(avg: seq<AvgRow>, fighters: map<string, Profile>)
    requires SortedBy(avg, AvgKey)
    ensures SortedBy(JoinProfiles(Rates(avg), fighters), ProfiledKey)
  {
    var joined := JoinProfiles(Rates(avg), fighters);
    forall a, b | 0 <= a < b < |joined| ensures KeyLe(ProfiledKey(joined[a]), ProfiledKey(joined[b])) {
      assert ProfiledKey(joined[a]) == AvgKey(avg[a]) && ProfiledKey(joined[b]) == AvgKey(avg[b]);
    }
  }

  lemma {:induction false} HandleNullsSorted(t: seq<ProfiledRow>)
    requires SortedBy(t, ProfiledKey)
    ensures SortedBy(HandleNulls(t), ProfiledKey)
  {
    var filled := seq(|t|, i requires 0 <= i < |t| => FillStance(t[i]));
    forall i | 0 <= i < |t| ensures ProfiledKey(filled[i]) == ProfiledKey(t[i]) {
      RewritesKeepKey(t[i]);
    }
    MapKeepsOrder(t, filled);
    DropFightsSorted(filled, FightsWhere(filled, HasNullDob));
  }

  lemma {:induction false} EncodeSorted(t: seq<ProfiledRow>)
    requires SortedBy(t, ProfiledKey)
    ensures SortedBy(EncodeCategorical(t), ProfiledKey)
  {
    var enc := seq(|t|, i requires 0 <= i < |t| => EncodeRow(t[i]));
    forall i | 0 <= i < |t| ensures ProfiledKey(enc[i]) == ProfiledKey(t[i]) {
      RewritesKeepKey(t[i]);
    }
    MapKeepsOrder(t, enc);
    DropFightsSorted(enc, FightsWhere(enc, Excluded));
  }

  /**
   * The rows that reach the form stage are still sorted by (fighter, date,
   * fight): the rate, profile, null and encoding stages only rewrite rows
   * in place or drop them.
   */
  lemma {:induction false} CleanedTableSorted(t: seq<FightRow>, fighters: map<string, Profile>)
    ensures var rated := Rates(WithAverages(MirrorAbsorbReceive(t)));
      SortedBy(EncodeCategorical(HandleNulls(JoinProfiles(rated, fighters))), ProfiledKey)
  {
    var avg := WithAverages(MirrorAbsorbReceive(t));
    AveragesSorted(MirrorAbsorbReceive(t));
    RatesJoinSorted(avg, fighters);
    HandleNullsSorted(JoinProfiles(Rates(avg), fighters));
    EncodeSorted(HandleNulls(JoinProfiles(Rates(avg), fighters)));
  }

  // ---------------------------------------------------------------------
  // Form features
  // ---------------------------------------------------------------------

  /**
   * The form columns of row `i`, where `w` is the fighter's `is_win` column
   * in table order and `k` the row's place in it: the win (loss) streak is
   * the run of wins (losses) that ends just before the row, the longest
   * streak the longest run of wins before it, each `wins_by_<M>` the number
   * of earlier wins carrying that method; all are 0 on the debut row, and
   * after it exactly one of the two streaks is positive. The colour is Red
   * exactly for the fight's red fighter, and the age is the completed years
   * at the event date.
   */
  lemma {:induction false} FormOfRow(t: seq<ProfiledRow>, i: nat)
    requires i < |t|
    ensures var ids := ProfiledFighters(t); var f := t[i].rate.fighterId;
      var k := Groups.Rank(ids, i); var w := Results(t, f); var r := WithForm(t)[i];
      k < |w| && w[k] == IsWin(t[i]) && r.p == t[i]
      && (r.color == Red <==> t[i].rate.fighterId == t[i].rate.bout.redFighterId)
      && r.winStreak == Streaks.TrailingRun(w[..k])
      && r.loseStreak == Streaks.TrailingRun(Streaks.Not(w)[..k])
      && r.longestWinStreak == Streaks.LongestRun(w[..k])
      && r.winStreak <= r.longestWinStreak
      && (r.isDebut <==> k == 0)
      && (k == 0 ==> r.winStreak == 0 && r.loseStreak == 0 && r.longestWinStreak == 0)
      && (k > 0 ==> (r.winStreak >= 1 <==> w[k - 1]) && (r.loseStreak >= 1 <==> !w[k - 1]))
      && (forall m :: r.winsBy(m) == |set q | 0 <= q < k && w[q] && Methods(t, f, m)[q]|)
      && (r.age.Some? <==> t[i].dob.Some?)
      && (t[i].dob.Some? ==> r.age == Some(Age(t[i].rate.bout.eventDate, t[i].dob.value)))
  {
    var ids := ProfiledFighters(t);
    var f := t[i].rate.fighterId;
    Groups.PositionAtRank(ids, i);
    var k := Groups.Rank(ids, i);
    var w := Results(t, f);
    var r := WithForm(t)[i];
    Streaks.CurrentStreakIsTrailingRun(w, k);
    Streaks.CurrentStreakIsTrailingRun(Streaks.Not(w), k);
    Streaks.LongestStreakIsLongestRun(w, k);
    Streaks.LongestStreakProperties(w, k, k);
    if k > 0 {
      Streaks.ExactlyOneStreak(w, k);
    }
    forall m ensures r.winsBy(m) == |set q | 0 <= q < k && w[q] && Methods(t, f, m)[q]| {
      Streaks.WinsByCountsEarlierWins(w, Methods(t, f, m), k);
    }
  }

  /** The longest-streak and method-count columns of row `i`, as the form stage computes them. */
  lemma {:induction false} FormAt(t: seq<ProfiledRow>, i: nat)
    requires i < |t|
    ensures var ids := ProfiledFighters(t); var f := t[i].rate.fighterId; var k := Groups.Rank(ids, i);
      k < Groups.Count(ids, f)
      && WithForm(t)[i].longestWinStreak == Streaks.LongestStreak(Results(t, f))[k]
      && forall m :: WithForm(t)[i].winsBy(m) == Streaks.WinsBy(Results(t, f), Methods(t, f, m))[k]
  {
    Groups.PositionAtRank(ProfiledFighters(t), i);
  }

  /**
   * Along a fighter's rows the longest streak and every method count never
   * decrease, and a method count grows by at most one from one row to the
   * next.
   */
  lemma {:induction false} FormMonotone(t: seq<ProfiledRow>, i: nat, j: nat, m: WinMethod)
    requires i < |t| && j < |t| && t[i].rate.fighterId == t[j].rate.fighterId
    requires Groups.Rank(ProfiledFighters(t), i) <= Groups.Rank(ProfiledFighters(t), j)
    ensures WithForm(t)[i].longestWinStreak <= WithForm(t)[j].longestWinStreak
    ensures WithForm(t)[i].winsBy(m) <= WithForm(t)[j].winsBy(m)
    ensures Groups.Rank(ProfiledFighters(t), j) == Groups.Rank(ProfiledFighters(t), i) + 1 ==>
      WithForm(t)[j].winsBy(m) <= WithForm(t)[i].winsBy(m) + 1
  {
    var ids := ProfiledFighters(t);
    var f := t[i].rate.fighterId;
    FormAt(t, i);
    FormAt(t, j);
    var ki := Groups.Rank(ids, i);
    var kj := Groups.Rank(ids, j);
    var w := Results(t, f);
    var c := Methods(t, f, m);
    Streaks.LongestStreakProperties(w, ki, kj);
    Streaks.WinsByMono(w, c, ki, kj);
    if kj == ki + 1 {
      Streaks.WinsByStep(w, c, kj);
    }
  }

  /** `is_debut` is set exactly on the first row of each fighter. */
  lemma {:induction false} DebutIsFirstRow(t: seq<ProfiledRow>, i: nat)
    requires i < |t|
    ensures WithForm(t)[i].isDebut <==> forall j :: 0 <= j < i ==> t[j].rate.fighterId != t[i].rate.fighterId
  {
    Groups.FirstOfGroup(ProfiledFighters(t), i);
  }

  /** Every fighter of the table has exactly one debut row. */
  lemma {:induction false} DebutOncePerFighter(t: seq<ProfiledRow>, f: string)
    requires f in ProfiledFighters(t)
    ensures var p := Groups.Positions(ProfiledFighters(t), f);
      |p| > 0 && t[p[0]].rate.fighterId == f && WithForm(t)[p[0]].isDebut
    ensures forall i, j :: (0 <= i < |t| && 0 <= j < |t| && t[i].rate.fighterId == f && t[j].rate.fighterId == f
      && WithForm(t)[i].isDebut && WithForm(t)[j].isDebut) ==> i == j
  {
    var ids := ProfiledFighters(t);
    var n :| 0 <= n < |ids| && ids[n] == f;
    Groups.InPositions(ids, n);
    Groups.RankAtPosition(ids, f, 0);
    DebutIsRankZero(t, Groups.Positions(ids, f)[0]);
    forall i, j | 0 <= i < |t| && 0 <= j < |t| && t[i].rate.fighterId == f && t[j].rate.fighterId == f
      && WithForm(t)[i].isDebut && WithForm(t)[j].isDebut
      ensures i == j
    {
      DebutIsRankZero(t, i);
      DebutIsRankZero(t, j);
      Groups.RankInjective(ids, i, j);
    }
  }

  /** `is_debut` is the test `cumcount() == 0` on the fighter's rows. */
  lemma {:induction false} DebutIsRankZero(t: seq<ProfiledRow>, i: nat)
    requires i < |t|
    ensures WithForm(t)[i].isDebut <==> Groups.Rank(ProfiledFighters(t), i) == 0
  {
    Groups.PositionAtRank(ProfiledFighters(t), i);
  }

  /**
   * In a sorted table the debut row is the fighter's earliest by (date,
   * fight), and every later row has an earlier or equal row before it.
   */
  lemma {:induction false} DebutIsEarliest(t: seq<ProfiledRow>, i: nat)
    requires SortedBy(t, ProfiledKey) && i < |t|
    ensures WithForm(t)[i].isDebut ==> forall j :: 0 <= j < |t| && t[j].rate.fighterId == t[i].rate.fighterId ==>
      KeyLe(ProfiledKey(t[i]), ProfiledKey(t[j]))
    ensures !WithForm(t)[i].isDebut ==>
      exists j :: 0 <= j < i && t[j].rate.fighterId == t[i].rate.fighterId && KeyLe(ProfiledKey(t[j]), ProfiledKey(t[i]))
  {
    var ids := ProfiledFighters(t);
    EarlierInGroup(t, ProfiledKey, ids, i);
    Groups.FirstOfGroup(ids, i);
    if WithForm(t)[i].isDebut {
      forall j | 0 <= j < |t| && t[j].rate.fighterId == t[i].rate.fighterId
        ensures KeyLe(ProfiledKey(t[i]), ProfiledKey(t[j]))
      {
        KeyLtTotal(ProfiledKey(t[i]), ProfiledKey(t[j]));
      }
    } else {
      var p := Groups.Positions(ids, ids[i]);
      assert p[0] < i && KeyLe(ProfiledKey(t[p[0]]), ProfiledKey(t[i]));
    }
  }

  // ---------------------------------------------------------------------
  // Wide pivot
  // ---------------------------------------------------------------------

  /**
   * `x` is the wide row built from row `a`, the first row of its fight, with
   * the Red row `b` and the Blue row `c` of the same fight.
   */
  predicate WideOf(t: seq<FormRow>, x: WideRow, a: nat, b: nat, c: nat) {
    a < |t| && b < |t| && c < |t|
    && Groups.Rank(FormFightIds(t), a) == 0
    && t[b].color == Red && t[c].color == Blue
    && t[b].p.rate.bout.fightId == t[a].p.rate.bout.fightId
    && t[c].p.rate.bout.fightId == t[a].p.rate.bout.fightId
    && x == WideRow(SharedOf(t[a]), SideOf(t[b]), SideOf(t[c]))
  }

  /** A kept shared block is that of a first row of a fight. */
  lemma {:induction false} SharedFromFirstRow(t: seq<FormRow>, s: Shared) returns (a: nat)
    requires s in FirstPerFight(t)
    ensures a < |t| && Groups.Rank(FormFightIds(t), a) == 0 && s == SharedOf(t[a])
  {
    Groups.FirstOfEachMembers(FormFightIds(t), SharedBlocks(t));
    a :| 0 <= a < |t| && Groups.Rank(FormFightIds(t), a) == 0 && s == SharedBlocks(t)[a];
  }

  /** A side block of colour `col` is that of a row of colour `col`. */
  lemma {:induction false} SideFromRow(t: seq<FormRow>, s: Side, col: Color) returns (b: nat)
    requires s in SidesOf(t, col)
    ensures b < |t| && t[b].color == col && s == SideOf(t[b])
  {
    b :| 0 <= b < |t| && t[b].color == col && s == SideOf(t[b]);
  }

  /** Every wide row is built from a first row and a Red and a Blue row of its fight. */
  lemma {:induction false} WideRowsComeFromFights(t: seq<FormRow>, x: WideRow)
    requires x in ToWide(t)
    ensures exists a, b, c :: WideOf(t, x, a, b, c)
  {
    assert x.shared in FirstPerFight(t) && x.red in SidesOf(t, Red) && x.blue in SidesOf(t, Blue)
      && x.red.fightId == x.shared.fightId && x.blue.fightId == x.shared.fightId;
    var a := SharedFromFirstRow(t, x.shared);
    var b := SideFromRow(t, x.red, Red);
    var c := SideFromRow(t, x.blue, Blue);
    assert x == WideRow(SharedOf(t[a]), SideOf(t[b]), SideOf(t[c]));
    assert WideOf(t, x, a, b, c);
  }

  /** Every first row with a Red and a Blue row of its fight gives a wide row. */
  lemma {:induction false} FightsGiveWideRows(t: seq<FormRow>, x: WideRow, a: nat, b: nat, c: nat)
    requires WideOf(t, x, a, b, c)
    ensures x in ToWide(t)
  {
    Groups.FirstOfEachMembers(FormFightIds(t), SharedBlocks(t));
    assert x.shared == SharedBlocks(t)[a];
    assert x.shared in FirstPerFight(t);
    assert x.red in SidesOf(t, Red) && x.blue in SidesOf(t, Blue);
  }

  /**
   * The wide table holds one row for each choice of a Red and a Blue row of a
   * fight, with the shared block of the fight's first row, and nothing else:
   * a fight lacking either colour contributes no row.
   */
  lemma {:induction false} WideRowsAreWholeFights(t: seq<FormRow>)
    ensures forall x :: x in ToWide(t) <==> exists a, b, c :: WideOf(t, x, a, b, c)
  {
    forall x | x in ToWide(t) ensures exists a, b, c :: WideOf(t, x, a, b, c) {
      WideRowsComeFromFights(t, x);
    }
    forall x, a, b, c | WideOf(t, x, a, b, c) ensures x in ToWide(t) {
      FightsGiveWideRows(t, x, a, b, c);
    }
  }
}
