/**
 * The feature-aggregation pipeline that turns one row per (fight, fighter)
 * into one row per fight of leakage-free form features.
 *
 * A table is a sequence of rows in table order.  Every stage is a function
 * from one table to the next, in the order the pipeline's main function calls
 * them: opponent mirror, causal averages, rates and deltas, fighter profiles,
 * null handling, categorical encoding and exclusions, streaks, method counts,
 * age, debut flag, wide pivot and attribute deltas.  A pandas null (NaN, None)
 * is `None`.
 */
module FeatureEngineering {
  import opened Wrappers
  import opened Chrono
  import Groups
  import Ewma
  import Streaks
  import PyText

  datatype Color = Red | Blue

  /**
   * The numeric columns that are averaged: the per-fighter statistics of the
   * `fighter_fights` table, the four mirrored opponent columns, and the fight's
   * `total_duration`.
   */
  datatype Metric =
    | Knockdowns | SubAttempts | Reversals | CtrlTime
    | TotStrLanded | TotStrAttempted | TdLanded | TdAttempted
    | SigStrLanded | SigStrAttempted
    | HeadLanded | HeadAttempted | BodyLanded | BodyAttempted
    | LegLanded | LegAttempted | DistanceLanded | DistanceAttempted
    | ClinchLanded | ClinchAttempted | GroundLanded | GroundAttempted
    | SigStrAbsorbed | SigStrReceived | TdAbsorbed | TdReceived
    | TotalDuration

  /** One row's value of every averaged column. */
  type Stats = Metric -> real

  /**
   * The columns of the `fights` table a row keeps.  The strings are as stored
   * (`weight_class` "Women's Flyweight", `finish_type` "KO/TKO", `decision_type`
   * "U-DEC"); `winner_color` only ever holds "Red", "Blue" or null.
   */
  datatype Bout = Bout(
    fightId: string,
    eventDate: Date,
    weightClass: Option<string>,
    isTitleFight: bool,
    redFighterId: string,
    blueFighterId: string,
    winnerColor: Option<Color>,
    endRound: Option<int>,
    roundsScheduled: Option<int>,
    finishType: Option<string>,
    decisionType: Option<string>,
    referee: Option<string>,
    eventStatus: Option<string>)

  /** A row of the merged `fights` x `fighter_fights` table. */
  datatype FightRow = FightRow(bout: Bout, fighterId: string, stats: Stats)

  function FightIds(t: seq<FightRow>): (r: seq<string>)
    ensures |r| == |t| && forall i :: 0 <= i < |t| ==> r[i] == t[i].bout.fightId
  {
    seq(|t|, i requires 0 <= i < |t| => t[i].bout.fightId)
  }

  function FighterIds(t: seq<FightRow>): (r: seq<string>)
    ensures |r| == |t| && forall i :: 0 <= i < |t| ==> r[i] == t[i].fighterId
  {
    seq(|t|, i requires 0 <= i < |t| => t[i].fighterId)
  }

  // ---------------------------------------------------------------------
  // Opponent mirror (create_absorb_receive_columns)
  // ---------------------------------------------------------------------

  /** Row `i`'s statistics with the four opponent columns taken from row `o`. */
  function WithOpponent(s: Stats, o: Stats): Stats {
    m =>
      if m == SigStrAbsorbed then o(SigStrLanded)
      else if m == SigStrReceived then o(SigStrAttempted)
      else if m == TdAbsorbed then o(TdLanded)
      else if m == TdReceived then o(TdAttempted)
      else s(m)
  }

  /**
   * `sig_str_absorbed`, `sig_str_received`, `td_absorbed`, `td_received`:
   * each row receives the landed and attempted counts of the row at the
   * reversed position of its `fight_id` group.
   */
  function MirrorAbsorbReceive(t: seq<FightRow>): (r: seq<FightRow>)
    ensures |r| == |t|
    ensures forall i :: 0 <= i < |t| ==> r[i].bout == t[i].bout && r[i].fighterId == t[i].fighterId
  {
    var ids := FightIds(t);
    var o := seq(|t|, i requires 0 <= i < |t| => Groups.Mirror(ids, i));
    seq(|t|, i requires 0 <= i < |t| =>
      FightRow(t[i].bout, t[i].fighterId, WithOpponent(t[i].stats, t[o[i]].stats)))
  }

  // ---------------------------------------------------------------------
  // Causal averages (calculate_weighted_moving_averages)
  // ---------------------------------------------------------------------

  /** The sort key `['fighter_id', 'event_date', 'fight_id']`. */
  function ChronoKey(r: FightRow): SortKey {
    SortKey(r.fighterId, r.bout.eventDate, r.bout.fightId)
  }

  /** One column of the table. */
  function Column(t: seq<FightRow>, m: Metric): (c: seq<real>)
    ensures |c| == |t| && forall i :: 0 <= i < |t| ==> c[i] == t[i].stats(m)
  {
    seq(|t|, i requires 0 <= i < |t| => t[i].stats(m))
  }

  /** One column of a fighter's rows, in table order. */
  function History(t: seq<FightRow>, f: string, m: Metric): (h: seq<real>)
    ensures |h| == Groups.Count(FighterIds(t), f)
    ensures forall q :: 0 <= q < |h| ==> h[q] == t[Groups.Positions(FighterIds(t), f)[q]].stats(m)
  {
    Groups.GroupValues(FighterIds(t), Column(t, m), f)
  }

  /**
   * `avg_<m>` of row `i`: the fighter's column averaged with `ewm(span=5)`
   * and shifted by one within the fighter's rows.
   */
  function AvgOf(t: seq<FightRow>, i: nat, m: Metric): Option<real>
    requires i < |t|
  {
    var ids := FighterIds(t);
    Groups.PositionAtRank(ids, i);
    var h := History(t, t[i].fighterId, m);
    Ewma.Causal(h)[Groups.Rank(ids, i)]
  }

  /** A row after the averaging stage: the fight columns and `avg_*`. */
  datatype AvgRow = AvgRow(bout: Bout, fighterId: string, totalDuration: real, avg: Metric -> Option<real>)

  /** Sort by fighter, date and fight, then attach `avg_*` to every row. */
  function WithAverages(t: seq<FightRow>): (r: seq<AvgRow>)
    ensures |r| == |t|
    ensures forall i :: 0 <= i < |r| ==> exists j :: (0 <= j < |t| && r[i].bout == t[j].bout
      && r[i].fighterId == t[j].fighterId && r[i].totalDuration == t[j].stats(TotalDuration))
  {
    var s := Sort(t, ChronoKey);
    assert forall i :: 0 <= i < |s| ==> s[i] in multiset(t);
    seq(|s|, i requires 0 <= i < |s| =>
      AvgRow(s[i].bout, s[i].fighterId, s[i].stats(TotalDuration), m => AvgOf(s, i, m)))
  }

  // ---------------------------------------------------------------------
  // Rates and deltas (calculate_rates, calculate_delta_rates)
  // ---------------------------------------------------------------------

  datatype Rate =
    | SLpM | SApM | StrAcc | StrDef | TDavg | TDdef | TDacc | SubAvg
    | HeadRatio | HeadAcc | BodyRatio | BodyAcc | LegRatio | LegAcc
    | DistanceRatio | DistanceAcc | ClinchRatio | ClinchAcc | GroundRatio | GroundAcc
    | KnockdownAvg | ReversalAvg | CtrlTimePct | StrEff

  /** `a / b` on nullable values; null when either is null or `b` is 0. */
  function Div(a: Option<real>, b: Option<real>): (r: Option<real>)
    ensures r.Some? <==> a.Some? && b.Some? && b.value != 0.0
    ensures r.Some? ==> r.value * b.value == a.value
  {
    if a.Some? && b.Some? && b.value != 0.0 then Some(a.value / b.value) else None
  }

  /** `np.where(b > 0, a / b, np.nan)`. */
  function DivIfPositive(a: Option<real>, b: Option<real>): (r: Option<real>)
    ensures r.Some? <==> a.Some? && b.Some? && b.value > 0.0
    ensures r.Some? ==> r.value * b.value == a.value
  {
    if b.Some? && b.value > 0.0 then Div(a, b) else None
  }

  /** `a - b` on nullable values. */
  function Minus(a: Option<real>, b: Option<real>): (r: Option<real>)
    ensures r.Some? <==> a.Some? && b.Some?
    ensures r.Some? ==> r.value + b.value == a.value
  {
    if a.Some? && b.Some? then Some(a.value - b.value) else None
  }

  function Neg(a: Option<real>): Option<real> {
    if a.Some? then Some(-a.value) else None
  }

  /** A nullable value divided by a constant. */
  function Per(a: Option<real>, k: real): Option<real>
    requires k != 0.0
  {
    if a.Some? then Some(a.value / k) else None
  }

  /** The landed and attempted columns of one strike position. */
  function LandedOf(k: Rate): Metric
    requires k.HeadRatio? || k.HeadAcc? || k.BodyRatio? || k.BodyAcc? || k.LegRatio? || k.LegAcc?
      || k.DistanceRatio? || k.DistanceAcc? || k.ClinchRatio? || k.ClinchAcc? || k.GroundRatio? || k.GroundAcc?
  {
    match k
    case HeadRatio | HeadAcc => HeadLanded
    case BodyRatio | BodyAcc => BodyLanded
    case LegRatio | LegAcc => LegLanded
    case DistanceRatio | DistanceAcc => DistanceLanded
    case ClinchRatio | ClinchAcc => ClinchLanded
    case GroundRatio | GroundAcc => GroundLanded
  }

  function AttemptedOf(k: Rate): Metric
    requires k.HeadAcc? || k.BodyAcc? || k.LegAcc? || k.DistanceAcc? || k.ClinchAcc? || k.GroundAcc?
  {
    match k
    case HeadAcc => HeadAttempted
    case BodyAcc => BodyAttempted
    case LegAcc => LegAttempted
    case DistanceAcc => DistanceAttempted
    case ClinchAcc => ClinchAttempted
    case GroundAcc => GroundAttempted
  }

  /** `w_<k>` of a row, computed from its `avg_*` columns. */
  function RateOf(a: Metric -> Option<real>, k: Rate): Option<real> {
    var minutes := Per(a(TotalDuration), 60.0);
    var quarters := Per(a(TotalDuration), 900.0);
    match k
    case SLpM => Div(a(SigStrLanded), minutes)
    case SApM => Div(a(SigStrAbsorbed), minutes)
    case StrAcc => DivIfPositive(a(SigStrLanded), a(SigStrAttempted))
    case StrDef => DivIfPositive(Minus(a(SigStrReceived), a(SigStrAbsorbed)), a(SigStrReceived))
    case TDavg => Div(a(TdLanded), quarters)
    case TDacc => DivIfPositive(a(TdLanded), a(TdAttempted))
    case TDdef => DivIfPositive(Minus(a(TdReceived), a(TdAbsorbed)), a(TdReceived))
    case SubAvg => Div(a(SubAttempts), quarters)
    case HeadRatio | BodyRatio | LegRatio | DistanceRatio | ClinchRatio | GroundRatio =>
      Div(a(LandedOf(k)), a(SigStrLanded))
    case HeadAcc | BodyAcc | LegAcc | DistanceAcc | ClinchAcc | GroundAcc =>
      Div(a(LandedOf(k)), a(AttemptedOf(k)))
    case KnockdownAvg => Div(a(Knockdowns), quarters)
    case ReversalAvg => Div(a(Reversals), quarters)
    case CtrlTimePct => Div(a(CtrlTime), a(TotalDuration))
    case StrEff => DivIfPositive(a(SigStrLanded), a(TotStrLanded))
  }

  /** A row after the rate stage: the fight columns, `w_*`, `delta_*` and `net_str_eff`. */
  datatype RateRow = RateRow(
    bout: Bout,
    fighterId: string,
    totalDuration: real,
    w: Rate -> Option<real>,
    delta: Rate -> Option<real>,
    netStrEff: Option<real>)

  function AvgFightIds(t: seq<AvgRow>): (r: seq<string>)
    ensures |r| == |t| && forall i :: 0 <= i < |t| ==> r[i] == t[i].bout.fightId
  {
    seq(|t|, i requires 0 <= i < |t| => t[i].bout.fightId)
  }

  /** Net striking of a rate vector: `w_SLpM - w_SApM`. */
  function NetStriking(w: Rate -> Option<real>): Option<real> {
    Minus(w(SLpM), w(SApM))
  }

  /**
   * `w_*` of every row, then `opp_w_*` from the reversed row of the fight,
   * `delta_* = w_* - opp_w_*` and
   * `net_str_eff = (w_SLpM - w_SApM) - (opp_w_SLpM - opp_w_SApM)`.
   */
  function Rates(t: seq<AvgRow>): (r: seq<RateRow>)
    ensures |r| == |t|
    ensures forall i :: 0 <= i < |t| ==>
      r[i].bout == t[i].bout && r[i].fighterId == t[i].fighterId && r[i].totalDuration == t[i].totalDuration
  {
    seq(|t|, i requires 0 <= i < |t| => RatesAt(t, i))
  }

  /** Row `i` of the rate stage. */
  function RatesAt(t: seq<AvgRow>, i: nat): (r: RateRow)
    requires i < |t|
    ensures r.bout == t[i].bout && r.fighterId == t[i].fighterId && r.totalDuration == t[i].totalDuration
  {
    var w := k => RateOf(t[i].avg, k);
    var opp := k => RateOf(t[Groups.Mirror(AvgFightIds(t), i)].avg, k);
    RateRow(t[i].bout, t[i].fighterId, t[i].totalDuration, w,
      k => Minus(w(k), opp(k)), Minus(NetStriking(w), NetStriking(opp)))
  }


  // ---------------------------------------------------------------------
  // Fighter profiles and nulls (merge_fighters_to_main_df, handle_NaNs)
  // ---------------------------------------------------------------------

  /** A row of the `fighters` table, keyed by `fighter_id`. */
  datatype Profile = Profile(name: string, height: Option<int>, reach: Option<int>, stance: Option<string>, dob: Option<Date>)

  /** A row after the profile merge. */
  datatype ProfiledRow = ProfiledRow(
    rate: RateRow,
    name: Option<string>,
    height: Option<int>,
    reach: Option<int>,
    stance: Option<string>,
    dob: Option<Date>)

  /** The left merge on `fighter_id`: a fighter missing from the table gets nulls. */
  function JoinProfiles(t: seq<RateRow>, fighters: map<string, Profile>): (r: seq<ProfiledRow>)
    ensures |r| == |t|
    ensures forall i :: 0 <= i < |t| ==> r[i].rate == t[i]
    ensures forall i :: 0 <= i < |t| ==>
      (t[i].fighterId in fighters <==> r[i].name.Some?)
      && (t[i].fighterId in fighters ==> var p := fighters[t[i].fighterId];
            r[i].name == Some(p.name) && r[i].height == p.height && r[i].reach == p.reach
            && r[i].stance == p.stance && r[i].dob == p.dob)
      && (t[i].fighterId !in fighters ==>
            (r[i].height.None? && r[i].reach.None? && r[i].stance.None? && r[i].dob.None?))
  {
    seq(|t|, i requires 0 <= i < |t| =>
      if t[i].fighterId in fighters then
        var p := fighters[t[i].fighterId];
        ProfiledRow(t[i], Some(p.name), p.height, p.reach, p.stance, p.dob)
      else ProfiledRow(t[i], None, None, None, None, None))
  }

  function FightIdOf(r: ProfiledRow): string {
    r.rate.bout.fightId
  }

  /** The fights that have at least one row satisfying `bad`. */
  function FightsWhere(t: seq<ProfiledRow>, bad: ProfiledRow -> bool): (ids: set<string>)
    ensures forall i :: 0 <= i < |t| && bad(t[i]) ==> FightIdOf(t[i]) in ids
    ensures forall f :: f in ids ==> exists i :: 0 <= i < |t| && bad(t[i]) && FightIdOf(t[i]) == f
  {
    set i | 0 <= i < |t| && bad(t[i]) :: FightIdOf(t[i])
  }

  /** The rows whose fight is not in `ids`, in table order. */
  function DropFights(t: seq<ProfiledRow>, ids: set<string>): (r: seq<ProfiledRow>)
    ensures |r| <= |t|
    ensures forall j :: 0 <= j < |r| ==> FightIdOf(r[j]) !in ids
    ensures forall x :: x in r <==> x in t && FightIdOf(x) !in ids
    decreases |t|
  {
    if |t| == 0 then []
    else (if FightIdOf(t[0]) in ids then [] else [t[0]]) + DropFights(t[1..], ids)
  }

  /** `stance.fillna('Orthodox')`. */
  function FillStance(r: ProfiledRow): ProfiledRow {
    r.(stance := Some(if r.stance.Some? then r.stance.value else "Orthodox"))
  }

  function HasNullDob(r: ProfiledRow): bool {
    r.dob.None?
  }

  /**
   * Default the stance, then drop every row of a fight in which some row has
   * no date of birth.  (The weight-class median imputation of height and reach
   * is not part of this model.)
   */
  function HandleNulls(t: seq<ProfiledRow>): (r: seq<ProfiledRow>)
    ensures |r| <= |t|
    ensures forall j :: 0 <= j < |r| ==> r[j].dob.Some? && r[j].stance.Some?
  {
    var filled := seq(|t|, i requires 0 <= i < |t| => FillStance(t[i]));
    DropFights(filled, FightsWhere(filled, HasNullDob))
  }

  // ---------------------------------------------------------------------
  // Categorical encoding and exclusions (encode_categorical_columns)
  // ---------------------------------------------------------------------

  function MapText(a: Option<string>, f: string -> string): Option<string> {
    if a.Some? then Some(f(a.value)) else None
  }

  /** `weight_class`: apostrophes removed, spaces turned into underscores. */
  function EncodeWeightClass(s: string): string {
    PyText.ReplaceChar(PyText.ReplaceChar(s, '\'', ""), ' ', "_")
  }

  function EncodeFinish(s: string): string {
    PyText.ReplaceChar(s, '/', "_")
  }

  function EncodeDecision(s: string): string {
    PyText.ReplaceChar(s, '-', "_")
  }

  function EncodeStance(s: string): string {
    PyText.ReplaceChar(s, ' ', "_")
  }

  /** The string rewrites applied before `get_dummies`. */
  function EncodeRow(r: ProfiledRow): ProfiledRow {
    var b := r.rate.bout;
    var b' := b.(
      weightClass := MapText(b.weightClass, EncodeWeightClass),
      finishType := MapText(b.finishType, EncodeFinish),
      decisionType := MapText(b.decisionType, EncodeDecision));
    r.(rate := r.rate.(bout := b'), stance := MapText(r.stance, EncodeStance))
  }

  /**
   * A row whose dummy `finish_type_DQ`, `finish_type_Draw`, `finish_type_NC`,
   * `decision_type_OTHER_DEC`, `stance_Sideways` or `stance_Open_Stance` is set.
   */
  predicate Excluded(r: ProfiledRow) {
    var b := r.rate.bout;
    b.finishType == Some("DQ") || b.finishType == Some("Draw") || b.finishType == Some("NC")
    || b.decisionType == Some("OTHER_DEC")
    || r.stance == Some("Sideways") || r.stance == Some("Open_Stance")
  }

  /** Encode the categorical columns, then drop every fight with an excluded row. */
  function EncodeCategorical(t: seq<ProfiledRow>): (r: seq<ProfiledRow>)
    ensures |r| <= |t|
    ensures forall j :: 0 <= j < |r| ==> !Excluded(r[j])
  {
    var enc := seq(|t|, i requires 0 <= i < |t| => EncodeRow(t[i]));
    DropFights(enc, FightsWhere(enc, Excluded))
  }

  // ---------------------------------------------------------------------
  // Form features (streaks, method counts, age, debut)
  // ---------------------------------------------------------------------

  /** The method dummies whose winning rows are counted. */
  datatype WinMethod = KoTko | Sub | MDec | SDec | UDec

  /** The dummy column `finish_type_KO_TKO`, ..., `decision_type_U_DEC` of a row. */
  predicate MethodFlag(r: ProfiledRow, m: WinMethod) {
    var b := r.rate.bout;
    match m
    case KoTko => b.finishType == Some("KO_TKO")
    case Sub => b.finishType == Some("SUB")
    case MDec => b.decisionType == Some("M_DEC")
    case SDec => b.decisionType == Some("S_DEC")
    case UDec => b.decisionType == Some("U_DEC")
  }

  /** `fighter_color`: Red exactly when the row's fighter is the fight's red fighter. */
  function ColorOf(r: ProfiledRow): Color {
    if r.rate.fighterId == r.rate.bout.redFighterId then Red else Blue
  }

  /** `is_win`: the row's colour is the winner colour (a null winner matches nobody). */
  predicate IsWin(r: ProfiledRow) {
    r.rate.bout.winnerColor == Some(ColorOf(r))
  }

  /** The date `n` years after `dob`, on the same month and day. */
  function Anniversary(dob: Date, n: int): Date {
    Date(dob.year + n, dob.month, dob.day)
  }

  /**
   * `age`: the event year minus the birth year, less one before the birthday;
   * that is, the number of birthdays reached by the event date.
   */
  function Age(event: Date, dob: Date): (a: int)
    ensures !DateLt(event, Anniversary(dob, a)) && DateLt(event, Anniversary(dob, a + 1))
    ensures forall n :: !DateLt(event, Anniversary(dob, n)) && DateLt(event, Anniversary(dob, n + 1)) ==> n == a
  {
    event.year - dob.year
      - (if event.month < dob.month || (event.month == dob.month && event.day < dob.day) then 1 else 0)
  }

  /** A row with every form feature attached. */
  datatype FormRow = FormRow(
    p: ProfiledRow,
    color: Color,
    winStreak: nat,
    loseStreak: nat,
    longestWinStreak: nat,
    winsBy: WinMethod -> nat,
    age: Option<int>,
    isDebut: bool)

  function ProfiledFighters(t: seq<ProfiledRow>): (r: seq<string>)
    ensures |r| == |t| && forall i :: 0 <= i < |t| ==> r[i] == t[i].rate.fighterId
  {
    seq(|t|, i requires 0 <= i < |t| => t[i].rate.fighterId)
  }

  /** A fighter's `is_win` column, in table order. */
  function Results(t: seq<ProfiledRow>, f: string): (w: seq<bool>)
    ensures |w| == Groups.Count(ProfiledFighters(t), f)
    ensures forall q :: 0 <= q < |w| ==> w[q] == IsWin(t[Groups.Positions(ProfiledFighters(t), f)[q]])
  {
    Groups.GroupValues(ProfiledFighters(t), seq(|t|, i requires 0 <= i < |t| => IsWin(t[i])), f)
  }

  /** A fighter's dummy column for method `m`, in table order. */
  function Methods(t: seq<ProfiledRow>, f: string, m: WinMethod): (c: seq<bool>)
    ensures |c| == Groups.Count(ProfiledFighters(t), f)
    ensures forall q :: 0 <= q < |c| ==> c[q] == MethodFlag(t[Groups.Positions(ProfiledFighters(t), f)[q]], m)
  {
    Groups.GroupValues(ProfiledFighters(t), seq(|t|, i requires 0 <= i < |t| => MethodFlag(t[i], m)), f)
  }

  /**
   * The streak, method-count, age and debut columns of every row, each
   * computed within the row's fighter in table order.
   */
  function WithForm(t: seq<ProfiledRow>): (r: seq<FormRow>)
    ensures |r| == |t|
    ensures forall i :: 0 <= i < |t| ==> (r[i].p == t[i]
      && (r[i].color == Red <==> t[i].rate.fighterId == t[i].rate.bout.redFighterId)
      && (r[i].age.Some? <==> t[i].dob.Some?))
  {
    var ids := ProfiledFighters(t);
    seq(|t|, i requires 0 <= i < |t| =>
      Groups.PositionAtRank(ids, i);
      var f := t[i].rate.fighterId;
      var k := Groups.Rank(ids, i);
      var w := Results(t, f);
      FormRow(
        t[i],
        ColorOf(t[i]),
        Streaks.CurrentStreak(w)[k],
        Streaks.CurrentStreak(Streaks.Not(w))[k],
        Streaks.LongestStreak(w)[k],
        m => Streaks.WinsBy(w, Methods(t, f, m))[k],
        if t[i].dob.Some? then Some(Age(t[i].rate.bout.eventDate, t[i].dob.value)) else None,
        k == 0))
  }

  // ---------------------------------------------------------------------
  // Wide pivot (convert_data_to_wide_format, create_fighter_attribute_deltas)
  // ---------------------------------------------------------------------

  /** The `delta_*` columns kept in the shared block. */
  const SharedDeltas: set<Rate> := {
    TDavg, TDdef, TDacc, SubAvg, HeadRatio, HeadAcc, BodyRatio, BodyAcc, LegRatio, LegAcc,
    KnockdownAvg, ReversalAvg, CtrlTimePct, SLpM, SApM, StrDef, StrAcc, StrEff}

  /** The `w_*` columns kept for each corner. */
  const SideRates: set<Rate> := {
    SLpM, StrAcc, SApM, StrDef, TDavg, TDacc, TDdef, SubAvg, KnockdownAvg, ReversalAvg, CtrlTimePct, StrEff}

  /** The weight classes that have a `weight_class_*` column in the shared block. */
  const WeightClassColumns: set<string> := {
    "Bantamweight", "Catch_Weight", "Featherweight", "Flyweight", "Heavyweight",
    "Light_Heavyweight", "Lightweight", "Middleweight", "Welterweight",
    "Womens_Bantamweight", "Womens_Featherweight", "Womens_Flyweight", "Womens_Strawweight"}

  /**
   * The shared block of a fight.  `weightClass` stands for the thirteen
   * `weight_class_*` dummies: it names the one that is set, or is null when
   * none of them is.
   */
  datatype Shared = Shared(
    fightId: string,
    eventDate: Date,
    isTitleFight: bool,
    winnerColor: Option<Color>,
    endRound: Option<int>,
    totalDuration: real,
    roundsScheduled: Option<int>,
    referee: Option<string>,
    eventStatus: Option<string>,
    weightClass: Option<string>,
    delta: map<Rate, Option<real>>,
    netStrEff: Option<real>)

  /** The `R_*` or `B_*` block of a fight. */
  datatype Side = Side(
    fightId: string,
    fighterId: string,
    w: map<Rate, Option<real>>,
    name: Option<string>,
    height: Option<int>,
    reach: Option<int>,
    stanceOrthodox: bool,
    stanceSouthpaw: bool,
    stanceSwitch: bool,
    color: Color,
    winStreak: nat,
    loseStreak: nat,
    longestWinStreak: nat,
    winsBy: map<WinMethod, nat>,
    age: Option<int>,
    isDebut: bool)

  datatype WideRow = WideRow(shared: Shared, red: Side, blue: Side)

  function SharedOf(r: FormRow): (s: Shared)
    ensures s.fightId == r.p.rate.bout.fightId
    ensures s.delta.Keys == SharedDeltas
  {
    var b := r.p.rate.bout;
    Shared(b.fightId, b.eventDate, b.isTitleFight, b.winnerColor, b.endRound, r.p.rate.totalDuration,
      b.roundsScheduled, b.referee, b.eventStatus,
      if b.weightClass.Some? && b.weightClass.value in WeightClassColumns then b.weightClass else None,
      map k | k in SharedDeltas :: r.p.rate.delta(k), r.p.rate.netStrEff)
  }

  function SideOf(r: FormRow): (s: Side)
    ensures s.fightId == r.p.rate.bout.fightId && s.color == r.color
    ensures s.w.Keys == SideRates
  {
    Side(r.p.rate.bout.fightId, r.p.rate.fighterId, map k | k in SideRates :: r.p.rate.w(k),
      r.p.name, r.p.height, r.p.reach,
      r.p.stance == Some("Orthodox"), r.p.stance == Some("Southpaw"), r.p.stance == Some("Switch"),
      r.color, r.winStreak, r.loseStreak, r.longestWinStreak,
      map m | m in {KoTko, Sub, MDec, SDec, UDec} :: r.winsBy(m), r.age, r.isDebut)
  }

  function FormFightIds(t: seq<FormRow>): (r: seq<string>)
    ensures |r| == |t| && forall i :: 0 <= i < |t| ==> r[i] == t[i].p.rate.bout.fightId
  {
    seq(|t|, i requires 0 <= i < |t| => t[i].p.rate.bout.fightId)
  }

  /** Each row's shared block. */
  function SharedBlocks(t: seq<FormRow>): (r: seq<Shared>)
    ensures |r| == |t| && forall i :: 0 <= i < |t| ==> r[i] == SharedOf(t[i])
  {
    seq(|t|, i requires 0 <= i < |t| => SharedOf(t[i]))
  }

  /**
   * `drop_duplicates(subset=['fight_id'])`: the shared block of the first
   * row of each fight, in table order.
   */
  function FirstPerFight(t: seq<FormRow>): seq<Shared> {
    Groups.FirstOfEach(FormFightIds(t), SharedBlocks(t))
  }

  /** The rows of one colour, as `R_*` or `B_*` blocks, in table order. */
  function SidesOf(t: seq<FormRow>, c: Color): (r: seq<Side>)
    ensures forall j :: 0 <= j < |r| ==> r[j].color == c
    ensures forall x :: x in r <==> exists b :: 0 <= b < |t| && t[b].color == c && x == SideOf(t[b])
    decreases |t|
  {
    if |t| == 0 then []
    else
      var init := t[..|t| - 1];
      var r := SidesOf(init, c) + (if t[|t| - 1].color == c then [SideOf(t[|t| - 1])] else []);
      assert forall b :: 0 <= b < |init| ==> init[b] == t[b];
      r
  }

  /** The inner merge of one shared row with every blue block of its fight. */
  function MergeBlue(s: Shared, r: Side, blues: seq<Side>): (out: seq<WideRow>)
    ensures forall x :: x in out <==> x.shared == s && x.red == r && x.blue in blues && x.blue.fightId == s.fightId
    decreases |blues|
  {
    if |blues| == 0 then []
    else
      var b := blues[|blues| - 1];
      var init := blues[..|blues| - 1];
      assert blues == init + [b];
      MergeBlue(s, r, init) + (if b.fightId == s.fightId then [WideRow(s, r, b)] else [])
  }

  /** The inner merge of one shared row with every red block (and blue block) of its fight. */
  function MergeRed(s: Shared, reds: seq<Side>, blues: seq<Side>): (out: seq<WideRow>)
    ensures forall x :: x in out <==>
      x.shared == s && x.red in reds && x.red.fightId == s.fightId && x.blue in blues && x.blue.fightId == s.fightId
    decreases |reds|
  {
    if |reds| == 0 then []
    else
      var r := reds[|reds| - 1];
      var init := reds[..|reds| - 1];
      assert reds == init + [r];
      MergeRed(s, init, blues) + (if r.fightId == s.fightId then MergeBlue(s, r, blues) else [])
  }

  /** `shared_df.merge(red_df, on='fight_id').merge(blue_df, on='fight_id')`. */
  function Merge(shared: seq<Shared>, reds: seq<Side>, blues: seq<Side>): (out: seq<WideRow>)
    ensures forall x :: x in out <==>
      x.shared in shared && x.red in reds && x.red.fightId == x.shared.fightId
      && x.blue in blues && x.blue.fightId == x.shared.fightId
    decreases |shared|
  {
    if |shared| == 0 then []
    else
      var s := shared[|shared| - 1];
      var init := shared[..|shared| - 1];
      assert shared == init + [s];
      Merge(init, reds, blues) + MergeRed(s, reds, blues)
  }

  /** One row per fight: the shared block of the fight's first row, then the red and blue blocks. */
  function ToWide(t: seq<FormRow>): (r: seq<WideRow>)
    ensures forall x :: x in r ==> (x.red.color == Red && x.blue.color == Blue
      && x.red.fightId == x.shared.fightId && x.blue.fightId == x.shared.fightId)
  {
    Merge(FirstPerFight(t), SidesOf(t, Red), SidesOf(t, Blue))
  }

  /** A wide row with `delta_age`, `delta_height` and `delta_reach`. */
  datatype FinalRow = FinalRow(wide: WideRow, deltaAge: Option<int>, deltaHeight: Option<int>, deltaReach: Option<int>)

  /** `a - b` on nullable integers. */
  function IntMinus(a: Option<int>, b: Option<int>): (r: Option<int>)
    ensures r.Some? <==> a.Some? && b.Some?
    ensures r.Some? ==> r.value + b.value == a.value
  {
    if a.Some? && b.Some? then Some(a.value - b.value) else None
  }

  /** Red minus blue for age, height and reach. */
  function AttributeDeltas(t: seq<WideRow>): (r: seq<FinalRow>)
    ensures |r| == |t|
    ensures forall i :: 0 <= i < |t| ==> (r[i].wide == t[i]
      && (r[i].deltaAge.Some? <==> t[i].red.age.Some? && t[i].blue.age.Some?)
      && (r[i].deltaAge.Some? ==> r[i].deltaAge.value + t[i].blue.age.value == t[i].red.age.value)
      && (r[i].deltaHeight.Some? <==> t[i].red.height.Some? && t[i].blue.height.Some?)
      && (r[i].deltaHeight.Some? ==> r[i].deltaHeight.value + t[i].blue.height.value == t[i].red.height.value)
      && (r[i].deltaReach.Some? <==> t[i].red.reach.Some? && t[i].blue.reach.Some?)
      && (r[i].deltaReach.Some? ==> r[i].deltaReach.value + t[i].blue.reach.value == t[i].red.reach.value))
  {
    seq(|t|, i requires 0 <= i < |t| =>
      FinalRow(t[i], IntMinus(t[i].red.age, t[i].blue.age),
        IntMinus(t[i].red.height, t[i].blue.height), IntMinus(t[i].red.reach, t[i].blue.reach)))
  }

  /** The stages in the order the pipeline runs them. */
  function Pipeline(t: seq<FightRow>, fighters: map<string, Profile>): (r: seq<FinalRow>)
    ensures forall i :: 0 <= i < |r| ==> (r[i].wide.red.color == Red && r[i].wide.blue.color == Blue
      && r[i].wide.red.fightId == r[i].wide.shared.fightId && r[i].wide.blue.fightId == r[i].wide.shared.fightId)
  {
    var wide := ToWide(WithForm(Cleaned(t, fighters)));
    DeltasKeepSides(wide);
    AttributeDeltas(wide)
  }

  /** Adding the deltas keeps each wide row's red and blue blocks as they were. */
  lemma {:induction false} DeltasKeepSides(t: seq<WideRow>)
    requires forall x :: x in t ==> (x.red.color == Red && x.blue.color == Blue
      && x.red.fightId == x.shared.fightId && x.blue.fightId == x.shared.fightId)
    ensures var r := AttributeDeltas(t);
      forall i :: 0 <= i < |r| ==> (r[i].wide.red.color == Red && r[i].wide.blue.color == Blue
        && r[i].wide.red.fightId == r[i].wide.shared.fightId && r[i].wide.blue.fightId == r[i].wide.shared.fightId)
  {
    var r := AttributeDeltas(t);
    forall i | 0 <= i < |r| ensures r[i].wide in t { }
  }

  /** The per-fighter stages, up to the encoded categorical columns. */
  function Cleaned(t: seq<FightRow>, fighters: map<string, Profile>): seq<ProfiledRow>
  {
    var rated := Rates(WithAverages(MirrorAbsorbReceive(t)));
    EncodeCategorical(HandleNulls(JoinProfiles(rated, fighters)))
  }
}
