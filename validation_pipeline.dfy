/**
 * `ValidationPipeline` of the current crawler (`src/scrapy/crawler/pipelines.py`):
 * every item class has required fields and typed or enumerated fields; the
 * first check that fails raises `ValueError`, and an item that passes is
 * returned unchanged. Whether a text is a `YYYY-MM-DD` date (`strptime`) is
 * the parameter `isDate`.
 */
module ValidationPipeline {
  import opened Wrappers
  import opened PyText
  import opened Items
  import FightPipeline
  import FighterFightPipeline
  import ScrapyPipelines

  // ---------------------------------------------------------------------
  // The loops over field lists
  // ---------------------------------------------------------------------

  /** A required field that is unset, None or the empty string. */
  predicate Blank(v: Value) {
    v == Null || v == Str("")
  }

  /** A set field that is neither an `int` nor a `float` (`bool` counts as `int`). */
  predicate NotNumber(v: Value) {
    v != Null && !IsNumber(v)
  }

  /** The loop over `fields`, raising at the first field whose value is `bad`: that field, if any. */
  function FirstFailing(f: Fields, fields: seq<string>, bad: Value -> bool): (r: Option<string>)
    decreases |fields|
  {
    if fields == [] then None
    else if bad(Get(f, fields[0])) then Some(fields[0])
    else FirstFailing(f, fields[1..], bad)
  }

  /**
   * The loop raises exactly when some listed field is bad, and it names the
   * first such field.
   */
  lemma {:induction false} FirstFailingIff(f: Fields, fields: seq<string>, bad: Value -> bool)
    ensures FirstFailing(f, fields, bad).None? <==> forall i :: 0 <= i < |fields| ==> !bad(Get(f, fields[i]))
    ensures FirstFailing(f, fields, bad).Some? ==>
      (exists j :: 0 <= j < |fields|
         && fields[j] == FirstFailing(f, fields, bad).value && bad(Get(f, fields[j]))
         && forall i :: 0 <= i < j ==> !bad(Get(f, fields[i])))
    decreases |fields|
  {
    if fields != [] && !bad(Get(f, fields[0])) {
      var t := fields[1..];
      FirstFailingIff(f, t, bad);
      assert forall i :: 0 < i < |fields| ==> fields[i] == t[i - 1];
      if FirstFailing(f, t, bad).Some? {
        var j :| 0 <= j < |t| && t[j] == FirstFailing(f, t, bad).value && bad(Get(f, t[j]))
          && forall i :: 0 <= i < j ==> !bad(Get(f, t[i]));
        assert fields[j + 1] == t[j];
        assert forall i :: 0 <= i < j + 1 ==> !bad(Get(f, fields[i])) by {
          forall i | 0 < i < j + 1
            ensures !bad(Get(f, fields[i]))
          {
            assert fields[i] == t[i - 1];
          }
        }
      }
    }
  }

  /** The loop reads only the listed fields. */
  lemma {:induction false} FirstFailingAgree(f: Fields, g: Fields, fields: seq<string>, bad: Value -> bool)
    requires forall i :: 0 <= i < |fields| ==> Get(f, fields[i]) == Get(g, fields[i])
    ensures FirstFailing(f, fields, bad) == FirstFailing(g, fields, bad)
    decreases |fields|
  {
    if fields != [] {
      assert forall i :: 0 <= i < |fields| - 1 ==> fields[1..][i] == fields[i + 1];
      FirstFailingAgree(f, g, fields[1..], bad);
    }
  }

  /** `_is_valid_date`: only a string can be a date. */
  predicate ValidDate(v: Value, isDate: string -> bool) {
    v.Str? && isDate(v.s)
  }

  // ---------------------------------------------------------------------
  // _validate_fighter
  // ---------------------------------------------------------------------

  const FighterRequired: seq<string> := ["fighter_id", "name"]
  const FighterNumeric: seq<string> := ["height", "weight", "reach"]

  /** `_validate_fighter`: the first failing check, if any. */
  function ValidateFighter(f: Fields, isDate: string -> bool): (r: Option<PyError>)
    ensures r.Some? ==> r == Some(ValueError)
    ensures Get(f, "fighter_id") == Str("") || Get(f, "fighter_id") == Null ==> r.Some?
  {
    if FirstFailing(f, FighterRequired, Blank).Some? then Some(ValueError)
    else if Get(f, "fighter_id") == Str("") then Some(ValueError)
    else if FirstFailing(f, FighterNumeric, NotNumber).Some? then Some(ValueError)
    else if Get(f, "dob") != Null && !ValidDate(Get(f, "dob"), isDate) then Some(ValueError)
    else None
  }

  /**
   * A fighter is rejected exactly when its id or name is unset, None or empty,
   * a measurement is set to something other than a number, or a date of birth
   * is set and is not a date.
   */
  lemma {:induction false} FighterRaisesIff(f: Fields, isDate: string -> bool)
    ensures ValidateFighter(f, isDate).Some? <==>
      Blank(Get(f, "fighter_id")) || Blank(Get(f, "name"))
      || NotNumber(Get(f, "height")) || NotNumber(Get(f, "weight")) || NotNumber(Get(f, "reach"))
      || (Get(f, "dob") != Null && !ValidDate(Get(f, "dob"), isDate))
  {
    FirstFailingIff(f, FighterRequired, Blank);
    FirstFailingIff(f, FighterNumeric, NotNumber);
  }

  /** The fighters `FighterProcessorPipeline` leaves behind pass the measurement checks. */
  lemma {:induction false} ProcessedFighterMeasurements(f: Fields)
    requires ScrapyPipelines.ProcessFighter(f).error.None?
    ensures FirstFailing(ScrapyPipelines.ProcessFighter(f).fields, FighterNumeric, NotNumber).None?
  {
    var g := ScrapyPipelines.ProcessFighter(f).fields;
    ScrapyPipelines.ProcessFighterStoresParses(f);
    FirstFailingIff(g, FighterNumeric, NotNumber);
  }

  // ---------------------------------------------------------------------
  // _validate_fight
  // ---------------------------------------------------------------------

  const FightRequired: seq<string> := ["fight_id", "event_id", "red_fighter_id", "blue_fighter_id"]
  const ValidResults: set<Value> := {Str("Win"), Str("Draw"), Str("NC")}
  const ValidFinishTypes: set<Value> :=
    {Str("KO/TKO"), Str("SUB"), Str("DEC"), Str("DQ"), Str("NC"), Str("Draw"), Str("OTHER")}
  const ValidDecisionTypes: set<Value> := {Str("U-DEC"), Str("M-DEC"), Str("S-DEC"), Str("OTHER-DEC"), Null}

  /** The checks on the outcome: result, finish and decision in their sets, and a Win names both sides. */
  predicate OutcomeValid(f: Fields) {
    (Get(f, "result_type") == Null || Get(f, "result_type") in ValidResults)
    && (Get(f, "finish_type") == Null || Get(f, "finish_type") in ValidFinishTypes)
    && Get(f, "decision_type") in ValidDecisionTypes
    && (Get(f, "result_type") == Str("Win") ==> Get(f, "winner_id") != Null && Get(f, "loser_id") != Null)
  }

  /** A set round number must be an `int` of at least `least`. */
  predicate RoundValid(v: Value, least: int) {
    v == Null || (IsInt(v) && IntOf(v) >= least)
  }

  /** `_validate_fight`: the first failing check, if any. */
  function ValidateFight(f: Fields, isDate: string -> bool): (r: Option<PyError>)
    ensures r.Some? ==> r == Some(ValueError)
    ensures r.None? ==> OutcomeValid(f)
  {
    var res := Get(f, "result_type");
    if FirstFailing(f, FightRequired, Blank).Some? then Some(ValueError)
    else if res != Null && res !in ValidResults then Some(ValueError)
    else if Get(f, "finish_type") != Null && Get(f, "finish_type") !in ValidFinishTypes then Some(ValueError)
    else if Get(f, "decision_type") !in ValidDecisionTypes then Some(ValueError)
    else if res == Str("Win") && Get(f, "winner_id") == Null then Some(ValueError)
    else if res == Str("Win") && Get(f, "loser_id") == Null then Some(ValueError)
    else if Get(f, "end_round") != Null && (!IsInt(Get(f, "end_round")) || IntOf(Get(f, "end_round")) < 1) then
      Some(ValueError)
    else if Get(f, "end_round_time") != Null
      && (!IsInt(Get(f, "end_round_time")) || IntOf(Get(f, "end_round_time")) < 0) then
      Some(ValueError)
    else if Get(f, "event_date") != Null && !ValidDate(Get(f, "event_date"), isDate) then Some(ValueError)
    else None
  }

  /**
   * A fight is rejected exactly when an identity field is blank, the outcome
   * is inconsistent, the end round is not a positive integer, the end-round
   * time is not a non-negative integer, or the event date is not a date.
   */
  lemma {:induction false} FightRaisesIff(f: Fields, isDate: string -> bool)
    ensures ValidateFight(f, isDate).Some? <==>
      (exists i :: 0 <= i < |FightRequired| && Blank(Get(f, FightRequired[i])))
      || !OutcomeValid(f)
      || !RoundValid(Get(f, "end_round"), 1) || !RoundValid(Get(f, "end_round_time"), 0)
      || (Get(f, "event_date") != Null && !ValidDate(Get(f, "event_date"), isDate))
  {
    FirstFailingIff(f, FightRequired, Blank);
  }

  /**
   * A fought bout that `FightProcessorPipeline` processes without raising,
   * with both corners named and the result loaded as None, has a consistent
   * outcome: a Win names winner and loser.
   */
  lemma {:induction false} ProcessedFightOutcomeValid(f: Fields)
    requires Get(f, "event_status") != Str("upcoming") && Get(f, "result_type") == Null
    requires FightPipeline.CornersNamed(f)
    requires FightPipeline.ProcessFight(f).error.None?
    ensures OutcomeValid(FightPipeline.ProcessFight(f).fields)
  {
    var s1 := FightPipeline.HandleResults(f);
    var s2 := FightPipeline.HandleTime(s1.fields);
    assert Get(f, "method_raw").Str? && s1.error.None? && s2.error.None?;
    assert FightPipeline.ProcessFight(f) == FightPipeline.HandleWinnersAndLosers(s2.fields);
    OutcomeOfChain(f, s1.fields, s2.fields);
  }

  lemma {:induction false} OutcomeOfChain(f: Fields, g1: Fields, g2: Fields)
    requires Get(f, "method_raw").Str? && Get(f, "result_type") == Null
    requires FightPipeline.CornersNamed(f)
    requires g1 == FightPipeline.HandleResults(f).fields && g2 == FightPipeline.HandleTime(g1).fields
    requires FightPipeline.HandleWinnersAndLosers(g2).error.None?
    ensures OutcomeValid(FightPipeline.HandleWinnersAndLosers(g2).fields)
  {
    var g := FightPipeline.HandleWinnersAndLosers(g2).fields;
    ClassifiedKept(f, g1, g2);
    KeepsCorners(f, g1, g2);
    WinNamesBoth(g2);
  }

  lemma {:induction false} ClassifiedKept(f: Fields, g1: Fields, g2: Fields)
    requires Get(f, "method_raw").Str? && Get(f, "result_type") == Null
    requires g1 == FightPipeline.HandleResults(f).fields && g2 == FightPipeline.HandleTime(g1).fields
    ensures var g := FightPipeline.HandleWinnersAndLosers(g2).fields;
      Get(g, "finish_type") in ValidFinishTypes && Get(g, "decision_type") in ValidDecisionTypes
  {
    var g := FightPipeline.HandleWinnersAndLosers(g2).fields;
    FightPipeline.TimeKeeps(g1, "finish_type");
    FightPipeline.TimeKeeps(g1, "decision_type");
    FightPipeline.WinnersKeep(g2, "finish_type");
    FightPipeline.WinnersKeep(g2, "decision_type");
  }

  lemma {:induction false} WinNamesBoth(g2: Fields)
    requires FightPipeline.CornersNamed(g2)
    requires FightPipeline.HandleWinnersAndLosers(g2).error.None?
    ensures var g := FightPipeline.HandleWinnersAndLosers(g2).fields;
      Get(g, "result_type") in ValidResults
      && (Get(g, "result_type") == Str("Win") ==> Get(g, "winner_id") != Null && Get(g, "loser_id") != Null)
  {
    FightPipeline.WinnerIffWin(g2);
  }

  lemma {:induction false} KeepsCorners(f: Fields, g1: Fields, g2: Fields)
    requires FightPipeline.CornersNamed(f)
    requires g1 == FightPipeline.HandleResults(f).fields && g2 == FightPipeline.HandleTime(g1).fields
    ensures FightPipeline.CornersNamed(g2)
  {
    assert Get(g1, "red_fighter_id") == Get(f, "red_fighter_id");
    assert Get(g1, "blue_fighter_id") == Get(f, "blue_fighter_id");
    FightPipeline.TimeKeeps(g1, "red_fighter_id");
    FightPipeline.TimeKeeps(g1, "blue_fighter_id");
  }

  /**
   * A bout that is not completed, once `FightUpcomingProcessorPipeline` has
   * cleared it, is rejected only for a blank identity field or a bad event date.
   */
  lemma {:induction false} UpcomingFightValidation(f: Fields, isDate: string -> bool)
    requires Get(f, "event_status") != Str("completed")
    ensures ValidateFight(FightPipeline.UpcomingFight(f), isDate).Some? <==>
      (exists i :: 0 <= i < |FightRequired| && Blank(Get(f, FightRequired[i])))
      || (Get(f, "event_date") != Null && !ValidDate(Get(f, "event_date"), isDate))
  {
    var g := FightPipeline.UpcomingFight(f);
    var cleared := FightPipeline.UpcomingFightFields;
    assert g == NullOut(f, cleared);
    forall i | 0 <= i < |FightRequired|
      ensures Get(f, FightRequired[i]) == Get(g, FightRequired[i])
    {
      IdentityNotCleared(FightRequired[i]);
    }
    IdentityNotCleared("event_date");
    FirstFailingAgree(f, g, FightRequired, Blank);
    FirstFailingIff(f, FightRequired, Blank);
    ClearedOutcomeValidation(g, isDate);
  }

  /** The identity fields and the event date are not among the fields cleared on an upcoming bout. */
  lemma {:induction false} IdentityNotCleared(k: string)
    requires k in FightRequired || k == "event_date"
    ensures k !in FightPipeline.UpcomingFightFields
  {
    if k == "fight_id" {
      assert k !in FightPipeline.UpcomingFightKeys;
    } else if k == "event_id" {
      assert k !in FightPipeline.UpcomingFightKeys;
    } else if k == "red_fighter_id" {
      assert k !in FightPipeline.UpcomingFightKeys;
    } else if k == "blue_fighter_id" {
      assert k !in FightPipeline.UpcomingFightKeys;
    } else {
      assert k !in FightPipeline.UpcomingFightKeys;
    }
  }

  /** With no outcome recorded, only the identity fields and the event date are checked. */
  lemma {:induction false} ClearedOutcomeValidation(g: Fields, isDate: string -> bool)
    requires Get(g, "result_type") == Null && Get(g, "finish_type") == Null && Get(g, "decision_type") == Null
    requires Get(g, "end_round") == Null && Get(g, "end_round_time") == Null
    ensures ValidateFight(g, isDate).Some? <==>
      FirstFailing(g, FightRequired, Blank).Some?
      || (Get(g, "event_date") != Null && !ValidDate(Get(g, "event_date"), isDate))
  {
  }

  // ---------------------------------------------------------------------
  // _validate_event
  // ---------------------------------------------------------------------

  const EventRequired: seq<string> := ["event_id", "name"]

  /** `_validate_event`: an unrecognised status is only logged, so it never raises. */
  function ValidateEvent(f: Fields, isDate: string -> bool): (r: Option<PyError>)
    ensures r.Some? ==> r == Some(ValueError)
    ensures Get(f, "event_id") == Str("") || Get(f, "event_id") == Null ==> r.Some?
  {
    if FirstFailing(f, EventRequired, Blank).Some? then Some(ValueError)
    else if Get(f, "event_id") == Str("") then Some(ValueError)
    else if Get(f, "date") != Null && !ValidDate(Get(f, "date"), isDate) then Some(ValueError)
    else None
  }

  /** An event is rejected exactly when its id or name is blank or its date is set and not a date. */
  lemma {:induction false} EventRaisesIff(f: Fields, isDate: string -> bool)
    ensures ValidateEvent(f, isDate).Some? <==>
      Blank(Get(f, "event_id")) || Blank(Get(f, "name"))
      || (Get(f, "date") != Null && !ValidDate(Get(f, "date"), isDate))
  {
    FirstFailingIff(f, EventRequired, Blank);
  }

  // ---------------------------------------------------------------------
  // _validate_fighter_fight
  // ---------------------------------------------------------------------

  const FighterFightRequired: seq<string> := ["fight_id", "fighter_id", "opponent_id"]

  /** The fields `_validate_fighter_fight` requires to be numbers when set. */
  const FighterFightNumeric: seq<string> := ["knockdowns", "tot_str_landed", "tot_str_attempted",
    "td_landed", "td_attempted", "sub_attempts",
    "reversals", "ctrl_time", "sig_str_landed",
    "head_str_landed", "head_str_attempted", "body_str_landed",
    "body_str_attempted", "leg_str_landed", "leg_str_attempted",
    "distance_str_landed", "distance_str_attempted",
    "clinch_str_landed", "clinch_str_attempted",
    "ground_str_landed", "ground_str_attempted"]

  /** `_validate_fighter_fight`: the first failing check, if any; the ids compare with Python's `==`. */
  function ValidateFighterFight(f: Fields): (r: Option<PyError>)
    ensures r.Some? ==> r == Some(ValueError)
    ensures r.None? ==> !PyEq(Get(f, "fighter_id"), Get(f, "opponent_id"))
  {
    if FirstFailing(f, FighterFightRequired, Blank).Some? then Some(ValueError)
    else if PyEq(Get(f, "fighter_id"), Get(f, "opponent_id")) then Some(ValueError)
    else if FirstFailing(f, FighterFightNumeric, NotNumber).Some? then Some(ValueError)
    else None
  }

  /**
   * A fighter's bout is rejected exactly when an identity field is blank, the
   * fighter is their own opponent, or a statistic is set to something other than a number.
   */
  lemma {:induction false} FighterFightRaisesIff(f: Fields)
    ensures ValidateFighterFight(f).Some? <==>
      (exists i :: 0 <= i < |FighterFightRequired| && Blank(Get(f, FighterFightRequired[i])))
      || PyEq(Get(f, "fighter_id"), Get(f, "opponent_id"))
      || (exists i :: 0 <= i < |FighterFightNumeric| && NotNumber(Get(f, FighterFightNumeric[i])))
  {
    FirstFailingIff(f, FighterFightRequired, Blank);
    FirstFailingIff(f, FighterFightNumeric, NotNumber);
  }

  /** The numeric list is the converted list with the control time added after the reversals. */
  lemma {:induction false} NumericIsIntegerPlusControl()
    ensures FighterFightNumeric == FighterFightPipeline.IntegerFields[..7] + ["ctrl_time"]
      + FighterFightPipeline.IntegerFields[7..]
  {
  }

  /**
   * After `FighterFightProcessorPipeline` has run without raising, every
   * statistic it converts passes the numeric check; only the control time,
   * which no step converts, can still fail it, so a scraped "M:SS" control
   * time makes validation raise.
   */
  lemma {:induction false} ProcessedStatsNumeric(f: Fields, parseFloat: string -> Option<real>)
    requires Get(f, "event_status") != Str("upcoming")
    requires FighterFightPipeline.ProcessFighterFight(f, parseFloat).error.None?
    ensures var g := FighterFightPipeline.ProcessFighterFight(f, parseFloat).fields;
      (exists i :: 0 <= i < |FighterFightNumeric| && NotNumber(Get(g, FighterFightNumeric[i])))
      <==> NotNumber(Get(f, "ctrl_time"))
  {
    var g := FighterFightPipeline.ProcessFighterFight(f, parseFloat).fields;
    var ints := FighterFightPipeline.IntegerFields;
    forall k | k in ints
      ensures !NotNumber(Get(g, k))
    {
      ConvertedNumeric(f, parseFloat, k);
    }
    var h := FighterFightPipeline.HandleRawValues(f);
    FighterFightPipeline.LoggedFieldAt(h, ints, parseFloat, "ctrl_time");
    FighterFightPipeline.ConvertRaisesIffUnconvertible(h, ints, parseFloat);
    ControlTimeNotSplit(f);
    NumericOthersConverted();
  }

  /** Each field `convert_to_numerics` lists is a number or None once the step has not raised. */
  lemma {:induction false} ConvertedNumeric(f: Fields, parseFloat: string -> Option<real>, k: string)
    requires Get(f, "event_status") != Str("upcoming")
    requires FighterFightPipeline.ProcessFighterFight(f, parseFloat).error.None?
    requires k in FighterFightPipeline.IntegerFields
    ensures !NotNumber(Get(FighterFightPipeline.ProcessFighterFight(f, parseFloat).fields, k))
  {
    var ints := FighterFightPipeline.IntegerFields;
    var h := FighterFightPipeline.HandleRawValues(f);
    FighterFightPipeline.ConvertRaisesIffUnconvertible(h, ints, parseFloat);
    FighterFightPipeline.LoggedFieldAt(h, ints, parseFloat, k);
    if k in h {
      var i :| 0 <= i < |ints| && ints[i] == k;
      assert !FighterFightPipeline.Unconvertible(Get(h, ints[i]), parseFloat);
    }
  }

  /** Every numeric field but the control time is one `convert_to_numerics` lists. */
  lemma {:induction false} NumericOthersConverted()
    ensures FighterFightNumeric[7] == "ctrl_time"
    ensures forall i :: 0 <= i < |FighterFightNumeric| && i != 7 ==> FighterFightNumeric[i] in FighterFightPipeline.IntegerFields
  {
    var ints := FighterFightPipeline.IntegerFields;
    NumericIsIntegerPlusControl();
    forall i | 0 <= i < |FighterFightNumeric| && i != 7
      ensures FighterFightNumeric[i] in ints
    {
      if i < 7 {
        assert FighterFightNumeric[i] == ints[i];
      } else {
        assert FighterFightNumeric[i] == ints[i - 1];
      }
    }
  }

  /** `handle_raw_values` does not write the control time, and `convert_to_numerics` does not list it. */
  lemma {:induction false} ControlTimeNotSplit(f: Fields)
    ensures Get(FighterFightPipeline.HandleRawValues(f), "ctrl_time") == Get(f, "ctrl_time")
    ensures "ctrl_time" !in FighterFightPipeline.IntegerFields
  {
    var es := FighterFightPipeline.RawDataMap;
    forall i | 0 <= i < |es|
      ensures es[i].1 != "ctrl_time" && es[i].2 != "ctrl_time"
    {
      FighterFightPipeline.RawDataMapNamed(i);
      var stem := FighterFightPipeline.RawStems[i];
      assert "" + "ctrl_time" == "ctrl_time";
      FighterFightPipeline.SuffixesDiffer(stem, "", "_landed", "ctrl_time", 1);
      FighterFightPipeline.SuffixesDiffer(stem, "", "_attempted", "ctrl_time", 1);
    }
    FighterFightPipeline.WritesOf(es, "ctrl_time");
    FighterFightPipeline.WithCountsKeeps(f, es, "ctrl_time");
    var ints := FighterFightPipeline.IntegerFields;
    forall i | 0 <= i < |ints|
      ensures ints[i] != "ctrl_time"
    {
      assert ints[i][|ints[i]| - 1] in {'d', 's'};
    }
  }

  // ---------------------------------------------------------------------
  // ValidationPipeline.process_item
  // ---------------------------------------------------------------------

  /** `process_item`: dispatch on the item class; an item that passes is returned as it came. */
  function Validate(kind: Kind, f: Fields, isDate: string -> bool): (r: Result<Fields, PyError>)
    ensures r.Ok? ==> r.value == f
    ensures r.Err? ==> r.error == ValueError
  {
    var err := match kind
      case FighterItem => ValidateFighter(f, isDate)
      case FightItem => ValidateFight(f, isDate)
      case EventItem => ValidateEvent(f, isDate)
      case FighterFightItem => ValidateFighterFight(f)
      case OtherItem => None;
    if err.Some? then Err(ValueError) else Ok(f)
  }
}
