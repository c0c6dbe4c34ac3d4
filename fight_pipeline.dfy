/**
 * The fight pipelines of the current crawler (`src/scrapy/crawler/pipelines.py`):
 * `FightProcessorPipeline`, which classifies the finish method, computes the
 * scheduled and actual durations and resolves winner and loser from the red
 * corner's status, and `FightUpcomingProcessorPipeline`, which clears the
 * outcome of a bout that has not been fought. Each step is a function on the
 * item's fields (the `Step` it leaves behind) and a method that performs the
 * same assignments on an `Item`.
 */
module FightPipeline {
  import opened Wrappers
  import opened PyText
  import opened Items

  /** The fields of a `FightItem` of the current crawler. */
  ghost predicate IsFight(item: Item)
    reads item
  {
    item.Valid() && item.kind == FightItem && item.declared == ScrapyFields(FightItem)
  }

  // ---------------------------------------------------------------------
  // handle_results and determine_decision
  // ---------------------------------------------------------------------

  /** `determine_decision`: the first of unanimous, split, majority found in the text. */
  function DetermineDecision(text: string): (d: string)
    ensures d in {"U-DEC", "S-DEC", "M-DEC", "OTHER-DEC"}
  {
    if Contains(text, "unanimous") then "U-DEC"
    else if Contains(text, "split") then "S-DEC"
    else if Contains(text, "majority") then "M-DEC"
    else "OTHER-DEC"
  }

  /** The finish type `handle_results` reads from a lower-cased method, keywords tried in order. */
  function FinishType(text: string): (t: string)
    ensures t in {"KO/TKO", "SUB", "DEC", "DQ", "OTHER"}
  {
    if Contains(text, "ko") then "KO/TKO"
    else if Contains(text, "submission") then "SUB"
    else if Contains(text, "decision") then "DEC"
    else if Contains(text, "dq") then "DQ"
    else "OTHER"
  }

  /**
   * `handle_results`: clears `decision_type`, then lower-cases `method_raw`
   * (anything but a string raises `AttributeError`). An "NC" result is its own
   * finish type; a "Draw" also gets a decision type; any other result is
   * classified by keyword, and only a decision gets a decision type.
   */
  function HandleResults(f: Fields): (r: Step)
    ensures r.error.Some? <==> !Get(f, "method_raw").Str?
    ensures r.error.Some? ==> r.error == Some(AttributeError)
    ensures Get(r.fields, "result_type") == Get(f, "result_type")
    ensures r.error.None? ==>
      Get(r.fields, "finish_type") in {Str("KO/TKO"), Str("SUB"), Str("DEC"), Str("DQ"), Str("OTHER"), Str("NC"), Str("Draw")}
    ensures r.error.None? ==>
      (Get(r.fields, "decision_type") != Null <==> Get(r.fields, "finish_type") in {Str("DEC"), Str("Draw")})
    ensures Get(r.fields, "decision_type") in {Null, Str("U-DEC"), Str("S-DEC"), Str("M-DEC"), Str("OTHER-DEC")}
  {
    var f1 := f["decision_type" := Null];
    var res := Get(f1, "result_type");
    var m := Get(f1, "method_raw");
    if !m.Str? then Step(f1, Some(AttributeError))
    else
      var text := Lower(m.s);
      if res == Str("NC") then Step(f1["finish_type" := res], None)
      else if res == Str("Draw") then
        Step(f1["finish_type" := res]["decision_type" := Str(DetermineDecision(text))], None)
      else
        var finish := FinishType(text);
        var f2 := f1["finish_type" := Str(finish)];
        if finish == "DEC" then Step(f2["decision_type" := Str(DetermineDecision(text))], None)
        else Step(f2, None)
  }

  method HandleResultsStep(item: Item) returns (err: Option<PyError>)
    requires IsFight(item)
    modifies item
    ensures IsFight(item)
    ensures Step(item.fields, err) == HandleResults(old(item.fields))
  {
    item.Set("decision_type", Null);
    var res := Get(item.fields, "result_type");
    var m := Get(item.fields, "method_raw");
    if !m.Str? {
      return Some(AttributeError);
    }
    var text := Lower(m.s);
    if res == Str("NC") {
      item.Set("finish_type", res);
    } else if res == Str("Draw") {
      item.Set("finish_type", res);
      item.Set("decision_type", Str(DetermineDecision(text)));
    } else if Contains(text, "ko") {
      item.Set("finish_type", Str("KO/TKO"));
    } else if Contains(text, "submission") {
      item.Set("finish_type", Str("SUB"));
    } else if Contains(text, "decision") {
      item.Set("finish_type", Str("DEC"));
      item.Set("decision_type", Str(DetermineDecision(text)));
    } else if Contains(text, "dq") {
      item.Set("finish_type", Str("DQ"));
    } else {
      item.Set("finish_type", Str("OTHER"));
    }
    err := None;
  }

  /**
   * The decision subtype follows the priority unanimous, then split, then
   * majority: each is chosen exactly when it occurs and no earlier one does.
   */
  lemma {:induction false} DecisionPriority(text: string)
    ensures DetermineDecision(text) == "U-DEC" <==> Contains(text, "unanimous")
    ensures DetermineDecision(text) == "S-DEC" <==> !Contains(text, "unanimous") && Contains(text, "split")
    ensures DetermineDecision(text) == "M-DEC"
      <==> !Contains(text, "unanimous") && !Contains(text, "split") && Contains(text, "majority")
    ensures DetermineDecision(text) == "OTHER-DEC"
      <==> !Contains(text, "unanimous") && !Contains(text, "split") && !Contains(text, "majority")
  {
  }

  /**
   * Outside NC and Draw, the finish type is the first keyword found in the
   * order ko, submission, decision, dq, and only a decision gets a decision type.
   */
  lemma {:induction false} ResultsByKeyword(f: Fields)
    requires Get(f, "method_raw").Str?
    requires Get(f, "result_type") != Str("NC") && Get(f, "result_type") != Str("Draw")
    ensures var s := HandleResults(f); var text := Lower(Get(f, "method_raw").s);
      s.error.None?
      && Get(s.fields, "finish_type") == Str(FinishType(text))
      && (Get(s.fields, "decision_type") != Null <==> FinishType(text) == "DEC")
      && (FinishType(text) == "DEC" ==> Get(s.fields, "decision_type") == Str(DetermineDecision(text)))
  {
  }

  /** A result already known as NC or Draw becomes the finish type itself. */
  lemma {:induction false} ResultsOfKnownResult(f: Fields)
    requires Get(f, "method_raw").Str?
    requires Get(f, "result_type") in {Str("NC"), Str("Draw")}
    ensures HandleResults(f).error.None?
    ensures Get(HandleResults(f).fields, "finish_type") == Get(f, "result_type")
    ensures Get(HandleResults(f).fields, "result_type") == Get(f, "result_type")
  {
  }

  /** `handle_results` reads the method text only through its lower-case form. */
  lemma {:induction false} ResultsIgnoreCase(f: Fields, s: string)
    requires Get(f, "method_raw").Str?
    requires Lower(s) == Lower(Get(f, "method_raw").s)
    ensures HandleResults(f["method_raw" := Str(s)]).fields
      == HandleResults(f).fields["method_raw" := Str(s)]
    ensures HandleResults(f["method_raw" := Str(s)]).error == HandleResults(f).error
  {
    var g := f["method_raw" := Str(s)];
    assert g["decision_type" := Null] == f["decision_type" := Null]["method_raw" := Str(s)];
  }

  // ---------------------------------------------------------------------
  // handle_time
  // ---------------------------------------------------------------------

  /** `v * 5 * 60`: a number is scaled, a string is repeated, anything else raises. */
  function TimesScheduled(v: Value): Result<Value, PyError> {
    match v
    case Int(i) => Ok(Int(i * 300))
    case Bool(b) => Ok(Int(if b then 300 else 0))
    case Real(x) => Ok(Real(x * 300.0))
    case Str(s) => Ok(Str(Repeat(Repeat(s, 5), 60)))
    case _ => Err(TypeError)
  }

  /** `(e - 1) * 300 + t`: integers stay integers, a float makes a float, anything else raises. */
  function Duration(e: Value, t: Value): Result<Value, PyError> {
    if IsInt(e) && IsInt(t) then Ok(Int((IntOf(e) - 1) * 300 + IntOf(t)))
    else if IsNumber(e) && IsNumber(t) then Ok(Real((RealOf(e) - 1.0) * 300.0 + RealOf(t)))
    else Err(TypeError)
  }

  /**
   * `handle_time`: a truthy `rounds_scheduled` sets `time_scheduled` to five
   * minutes a round; when both `end_round` and `end_round_time` are set,
   * `total_duration` is the full rounds before the last one plus the time into it.
   */
  function HandleTime(f: Fields): (r: Step)
    ensures r.fields.Keys <= f.Keys + {"time_scheduled", "total_duration"}
    ensures r.error.Some? ==> r.error == Some(TypeError)
  {
    var e, t, rounds := Get(f, "end_round"), Get(f, "end_round_time"), Get(f, "rounds_scheduled");
    var scheduled := if Truthy(rounds) then TimesScheduled(rounds) else Ok(Null);
    if scheduled.Err? then Step(f, Some(scheduled.error))
    else
      var f1 := if Truthy(rounds) then f["time_scheduled" := scheduled.value] else f;
      if e != Null && t != Null then
        match Duration(e, t)
        case Err(x) => Step(f1, Some(x))
        case Ok(d) => Step(f1["total_duration" := d], None)
      else Step(f1, None)
  }

  method HandleTimeStep(item: Item) returns (err: Option<PyError>)
    requires IsFight(item)
    modifies item
    ensures IsFight(item)
    ensures Step(item.fields, err) == HandleTime(old(item.fields))
  {
    var e := Get(item.fields, "end_round");
    var t := Get(item.fields, "end_round_time");
    var rounds := Get(item.fields, "rounds_scheduled");
    if Truthy(rounds) {
      var scheduled := TimesScheduled(rounds);
      if scheduled.Err? {
        return Some(scheduled.error);
      }
      item.Set("time_scheduled", scheduled.value);
    }
    if e != Null && t != Null {
      var d := Duration(e, t);
      if d.Err? {
        return Some(d.error);
      }
      item.Set("total_duration", d.value);
    }
    err := None;
  }

  /**
   * On integer rounds and times: the scheduled time is five minutes a round,
   * the bout lasted the full rounds before the last plus the time into it, and
   * no other field changes.
   */
  lemma {:induction false} TimeOfIntegers(f: Fields, rounds: int, e: int, t: int, k: string)
    requires Get(f, "rounds_scheduled") == Int(rounds) && rounds != 0
    requires Get(f, "end_round") == Int(e) && Get(f, "end_round_time") == Int(t)
    ensures HandleTime(f).error.None?
    ensures Get(HandleTime(f).fields, "time_scheduled") == Int(rounds * 300)
    ensures Get(HandleTime(f).fields, "total_duration") == Int((e - 1) * 300 + t)
    ensures k != "time_scheduled" && k != "total_duration" ==> Get(HandleTime(f).fields, k) == Get(f, k)
  {
  }

  /**
   * A bout that ended inside its last round, and no later than the scheduled
   * last round, lasted no longer than its scheduled time and at least its full
   * earlier rounds.
   */
  lemma {:induction false} DurationWithinSchedule(f: Fields, rounds: int, e: int, t: int)
    requires Get(f, "rounds_scheduled") == Int(rounds) && rounds != 0
    requires Get(f, "end_round") == Int(e) && Get(f, "end_round_time") == Int(t)
    requires 1 <= e <= rounds && 0 <= t <= 300
    ensures var g := HandleTime(f).fields;
      g["total_duration"].Int? && g["time_scheduled"].Int?
      && (e - 1) * 300 <= g["total_duration"].i <= g["time_scheduled"].i
  {
    TimeOfIntegers(f, rounds, e, t, "");
    assert (e - 1) * 300 + t <= e * 300 <= rounds * 300;
  }

  /** Without the inputs, the durations are left as they were. */
  lemma {:induction false} TimeUntouched(f: Fields)
    requires !Truthy(Get(f, "rounds_scheduled"))
    requires Get(f, "end_round") == Null || Get(f, "end_round_time") == Null
    ensures HandleTime(f) == Step(f, None)
  {
  }

  /** Running `handle_time` a second time changes nothing: it reads no field it writes. */
  lemma {:induction false} HandleTimeIdempotent(f: Fields)
    requires HandleTime(f).error.None?
    ensures HandleTime(HandleTime(f).fields) == HandleTime(f)
  {
    var g := HandleTime(f).fields;
    assert Get(g, "end_round") == Get(f, "end_round");
    assert Get(g, "end_round_time") == Get(f, "end_round_time");
    assert Get(g, "rounds_scheduled") == Get(f, "rounds_scheduled");
  }

  // ---------------------------------------------------------------------
  // handle_winners_and_losers
  // ---------------------------------------------------------------------

  /** `item['referee'] = item.get('referee')`, the last assignment of the step. */
  function KeepReferee(f: Fields): Step {
    Step(f["referee" := Get(f, "referee")], None)
  }

  /**
   * `handle_winners_and_losers`: clears winner, loser and colour, then reads
   * the stripped red status (`item.get('red_status', '')`; None raises
   * `AttributeError`). `W` makes red the winner, `L` blue; both set the result
   * to Win; `D` is a Draw and anything else NC. Reading an unset fighter id
   * raises `KeyError`.
   */
  function HandleWinnersAndLosers(f: Fields): (r: Step)
    ensures r.error.Some? ==> r.error == Some(AttributeError) || r.error.value.KeyError?
    ensures r.error.None? ==> Get(r.fields, "result_type") in {Str("Win"), Str("Draw"), Str("NC")}
  {
    var f1 := f["winner_id" := Null]["loser_id" := Null]["winner_color" := Null];
    var status := GetOr(f1, "red_status", Str(""));
    if !status.Str? then Step(f1, Some(AttributeError))
    else
      OutcomeKeeps(f1, Strip(status.s), "referee");
      RecordOutcome(f1, Strip(status.s))
  }

  /** The branch of `handle_winners_and_losers` taken on the stripped red status `s`. */
  function RecordOutcome(f1: Fields, s: string): Step {
    if s == "W" then
      match Index(f1, "red_fighter_id")
      case Err(x) => Step(f1, Some(x))
      case Ok(red) =>
        var f2 := f1["winner_id" := red];
        match Index(f2, "blue_fighter_id")
        case Err(x) => Step(f2, Some(x))
        case Ok(blue) =>
          KeepReferee(f2["loser_id" := blue]["result_type" := Str("Win")]["winner_color" := Str("Red")])
    else if s == "L" then
      match Index(f1, "blue_fighter_id")
      case Err(x) => Step(f1, Some(x))
      case Ok(blue) =>
        var f2 := f1["winner_id" := blue];
        match Index(f2, "red_fighter_id")
        case Err(x) => Step(f2, Some(x))
        case Ok(red) =>
          KeepReferee(f2["loser_id" := red]["result_type" := Str("Win")]["winner_color" := Str("Blue")])
    else if s == "D" then KeepReferee(f1["result_type" := Str("Draw")])
    else KeepReferee(f1["result_type" := Str("NC")])
  }

  method HandleWinnersAndLosersStep(item: Item) returns (err: Option<PyError>)
    requires IsFight(item)
    modifies item
    ensures IsFight(item)
    ensures Step(item.fields, err) == HandleWinnersAndLosers(old(item.fields))
  {
    item.Set("winner_id", Null);
    item.Set("loser_id", Null);
    item.Set("winner_color", Null);
    var status := GetOr(item.fields, "red_status", Str(""));
    if !status.Str? {
      return Some(AttributeError);
    }
    var s := Strip(status.s);
    if s == "W" || s == "L" {
      var (winnerKey, loserKey) := if s == "W" then ("red_fighter_id", "blue_fighter_id")
                                   else ("blue_fighter_id", "red_fighter_id");
      var winner := Index(item.fields, winnerKey);
      if winner.Err? {
        return Some(winner.error);
      }
      item.Set("winner_id", winner.value);
      var loser := Index(item.fields, loserKey);
      if loser.Err? {
        return Some(loser.error);
      }
      item.Set("loser_id", loser.value);
      item.Set("result_type", Str("Win"));
      item.Set("winner_color", Str(if s == "W" then "Red" else "Blue"));
    } else if s == "D" {
      item.Set("result_type", Str("Draw"));
    } else {
      item.Set("result_type", Str("NC"));
    }
    item.Set("referee", Get(item.fields, "referee"));
    err := None;
  }

  /** Both corners are named: the fighter ids are set and are not None. */
  predicate CornersNamed(f: Fields) {
    "red_fighter_id" in f && "blue_fighter_id" in f && f["red_fighter_id"] != Null && f["blue_fighter_id"] != Null
  }

  /**
   * With both corners named, the step raises only on a status that is not a
   * string; otherwise the result is one of Win, Draw, NC, there is a winner
   * exactly when the result is Win, and winner and loser are then the two
   * corners, red winning exactly on `W`.
   */
  lemma {:induction false} WinnerIffWin(f: Fields)
    requires CornersNamed(f)
    ensures var s := HandleWinnersAndLosers(f);
      (s.error.None? <==> GetOr(f, "red_status", Str("")).Str?)
      && (s.error.None? ==>
            Get(s.fields, "result_type") in {Str("Win"), Str("Draw"), Str("NC")}
            && (Get(s.fields, "winner_id") != Null <==> Get(s.fields, "result_type") == Str("Win"))
            && (Get(s.fields, "loser_id") != Null <==> Get(s.fields, "result_type") == Str("Win"))
            && (Get(s.fields, "result_type") == Str("Win") ==>
                  {Get(s.fields, "winner_id"), Get(s.fields, "loser_id")} == {f["red_fighter_id"], f["blue_fighter_id"]})
            && (Get(s.fields, "winner_color") == Str("Red") <==> Strip(GetOr(f, "red_status", Str("")).s) == "W"))
  {
    var status := GetOr(f, "red_status", Str(""));
    var f1 := f["winner_id" := Null]["loser_id" := Null]["winner_color" := Null];
    assert GetOr(f1, "red_status", Str("")) == status;
    if status.Str? {
      var st := Strip(status.s);
      WinnersOfStatus(f, st);
      var g := HandleWinnersAndLosers(f).fields;
      if st == "W" || st == "L" {
        assert Get(g, "result_type") == Str("Win");
      } else {
        assert Get(g, "winner_id") == Null && Get(g, "loser_id") == Null;
      }
    } else {
      assert HandleWinnersAndLosers(f) == Step(f1, Some(AttributeError));
    }
  }

  /** The status of the red corner as the blue corner would have recorded it. */
  function Flip(s: string): string {
    if s == "W" then "L" else if s == "L" then "W" else s
  }

  /** The same bout written with the corners exchanged. */
  function SwapCorners(f: Fields): (g: Fields)
    requires "red_fighter_id" in f && "blue_fighter_id" in f && GetOr(f, "red_status", Str("")).Str?
  {
    f["red_fighter_id" := f["blue_fighter_id"]]["blue_fighter_id" := f["red_fighter_id"]]
     ["red_status" := Str(Flip(Strip(GetOr(f, "red_status", Str("")).s)))]
  }

  lemma {:induction false} FlipStripped(s: string)
    ensures Strip(Flip(Strip(s))) == Flip(Strip(s))
  {
    StripIdempotent(s);
    if Strip(s) == "W" {
      StripNoSpaces("L");
    } else if Strip(s) == "L" {
      StripNoSpaces("W");
    }
  }

  /**
   * Exchanging the corners (and the red status with them) names the same
   * winner, loser and result, with the winning colour exchanged.
   */
  lemma {:induction false} WinnersSymmetric(f: Fields)
    requires "red_fighter_id" in f && "blue_fighter_id" in f && GetOr(f, "red_status", Str("")).Str?
    ensures var s, t := HandleWinnersAndLosers(f), HandleWinnersAndLosers(SwapCorners(f));
      s.error == t.error == None
      && Get(s.fields, "winner_id") == Get(t.fields, "winner_id")
      && Get(s.fields, "loser_id") == Get(t.fields, "loser_id")
      && Get(s.fields, "result_type") == Get(t.fields, "result_type")
      && (Get(s.fields, "winner_color") == Str("Red") <==> Get(t.fields, "winner_color") == Str("Blue"))
  {
    var st := Strip(GetOr(f, "red_status", Str("")).s);
    var g := SwapCorners(f);
    FlipStripped(GetOr(f, "red_status", Str("")).s);
    assert GetOr(g, "red_status", Str("")) == Str(Flip(st));
    assert g["red_fighter_id"] == f["blue_fighter_id"] && g["blue_fighter_id"] == f["red_fighter_id"];
    WinnersOfStatus(f, st);
    WinnersOfStatus(g, Flip(st));
    if st == "W" {
      assert Flip(st) == "L";
    } else if st == "L" {
      assert Flip(st) == "W";
    } else {
      assert Flip(st) == st;
    }
  }

  /** The outcome `handle_winners_and_losers` records for each stripped red status. */
  lemma {:induction false} WinnersOfStatus(f: Fields, s: string)
    requires "red_fighter_id" in f && "blue_fighter_id" in f
    requires GetOr(f, "red_status", Str("")).Str? && Strip(GetOr(f, "red_status", Str("")).s) == s
    ensures var g := HandleWinnersAndLosers(f);
      g.error.None?
      && Get(g.fields, "winner_id") == (if s == "W" then f["red_fighter_id"] else if s == "L" then f["blue_fighter_id"] else Null)
      && Get(g.fields, "loser_id") == (if s == "W" then f["blue_fighter_id"] else if s == "L" then f["red_fighter_id"] else Null)
      && Get(g.fields, "winner_color") == (if s == "W" then Str("Red") else if s == "L" then Str("Blue") else Null)
      && Get(g.fields, "result_type") == (if s == "W" || s == "L" then Str("Win") else if s == "D" then Str("Draw") else Str("NC"))
  {
    var f1 := f["winner_id" := Null]["loser_id" := Null]["winner_color" := Null];
    ClearedFacts(f, f1);
    assert HandleWinnersAndLosers(f) == RecordOutcome(f1, s);
    OutcomeOfStatus(f1, s);
  }

  /** Clearing the outcome fields leaves the status and both fighter ids as they were. */
  lemma {:induction false} ClearedFacts(f: Fields, f1: Fields)
    requires "red_fighter_id" in f && "blue_fighter_id" in f
    requires f1 == f["winner_id" := Null]["loser_id" := Null]["winner_color" := Null]
    ensures GetOr(f1, "red_status", Str("")) == GetOr(f, "red_status", Str(""))
    ensures Get(f1, "winner_id") == Null && Get(f1, "loser_id") == Null && Get(f1, "winner_color") == Null
    ensures "red_fighter_id" in f1 && "blue_fighter_id" in f1
    ensures f1["red_fighter_id"] == f["red_fighter_id"] && f1["blue_fighter_id"] == f["blue_fighter_id"]
  {
  }

  lemma {:induction false} OutcomeOfStatus(f1: Fields, s: string)
    requires "red_fighter_id" in f1 && "blue_fighter_id" in f1
    ensures var g := RecordOutcome(f1, s);
      g.error.None?
      && Get(g.fields, "winner_id") == (if s == "W" then f1["red_fighter_id"] else if s == "L" then f1["blue_fighter_id"] else Get(f1, "winner_id"))
      && Get(g.fields, "loser_id") == (if s == "W" then f1["blue_fighter_id"] else if s == "L" then f1["red_fighter_id"] else Get(f1, "loser_id"))
      && Get(g.fields, "winner_color") == (if s == "W" then Str("Red") else if s == "L" then Str("Blue") else Get(f1, "winner_color"))
      && Get(g.fields, "result_type") == (if s == "W" || s == "L" then Str("Win") else if s == "D" then Str("Draw") else Str("NC"))
  {
    var red, blue := f1["red_fighter_id"], f1["blue_fighter_id"];
    assert Index(f1, "red_fighter_id") == Ok(red);
    assert Index(f1, "blue_fighter_id") == Ok(blue);
    if s == "W" {
      var f2 := f1["winner_id" := red];
      assert Index(f2, "blue_fighter_id") == Ok(blue);
      var f3 := f2["loser_id" := blue]["result_type" := Str("Win")]["winner_color" := Str("Red")];
      assert RecordOutcome(f1, s) == KeepReferee(f3);
    } else if s == "L" {
      var f2 := f1["winner_id" := blue];
      assert Index(f2, "red_fighter_id") == Ok(red);
      var f3 := f2["loser_id" := red]["result_type" := Str("Win")]["winner_color" := Str("Blue")];
      assert RecordOutcome(f1, s) == KeepReferee(f3);
    } else if s == "D" {
      assert RecordOutcome(f1, s) == KeepReferee(f1["result_type" := Str("Draw")]);
    } else {
      assert RecordOutcome(f1, s) == KeepReferee(f1["result_type" := Str("NC")]);
    }
  }

  // ---------------------------------------------------------------------
  // FightProcessorPipeline.process_item
  // ---------------------------------------------------------------------

  /**
   * `FightProcessorPipeline.process_item` on a `FightItem`: an upcoming bout
   * passes through; otherwise `handle_results`, `handle_time` and
   * `handle_winners_and_losers` run in that order, stopping at the first that raises.
   */
  function ProcessFight(f: Fields): (r: Step)
    ensures r.error.None? && Get(f, "event_status") != Str("upcoming") ==>
      Get(r.fields, "result_type") in {Str("Win"), Str("Draw"), Str("NC")}
  {
    if Get(f, "event_status") == Str("upcoming") then Step(f, None)
    else
      var s1 := HandleResults(f);
      if s1.error.Some? then s1
      else
        var s2 := HandleTime(s1.fields);
        if s2.error.Some? then s2
        else HandleWinnersAndLosers(s2.fields)
  }

  method ProcessFightItem(item: Item) returns (err: Option<PyError>)
    requires item.Valid() && item.declared == ScrapyFields(item.kind)
    modifies item
    ensures item.Valid()
    ensures item.kind == FightItem ==> Step(item.fields, err) == ProcessFight(old(item.fields))
    ensures item.kind != FightItem ==> item.fields == old(item.fields) && err.None?
  {
    if item.kind != FightItem || Get(item.fields, "event_status") == Str("upcoming") {
      return None;
    }
    err := HandleResultsStep(item);
    if err.Some? {
      return;
    }
    err := HandleTimeStep(item);
    if err.Some? {
      return;
    }
    err := HandleWinnersAndLosersStep(item);
  }

  /**
   * Because the finish type is set before the result is known, a bout whose
   * result was loaded as None (as the spider loads it) is classified by keyword
   * even when it turns out a Draw or NC: its finish type is never "Draw" or "NC".
   */
  lemma {:induction false} FinishBeforeResult(f: Fields)
    requires Get(f, "event_status") != Str("upcoming")
    requires Get(f, "result_type") == Null
    requires ProcessFight(f).error.None?
    ensures var g := ProcessFight(f).fields;
      Get(g, "finish_type") in {Str("KO/TKO"), Str("SUB"), Str("DEC"), Str("DQ"), Str("OTHER")}
      && Get(g, "result_type") in {Str("Win"), Str("Draw"), Str("NC")}
      && (Get(g, "decision_type") != Null <==> Get(g, "finish_type") == Str("DEC"))
  {
    var s1 := HandleResults(f);
    ResultsByKeyword(f);
    var s2 := HandleTime(s1.fields);
    assert ProcessFight(f) == HandleWinnersAndLosers(s2.fields);
    TimeKeeps(s1.fields, "finish_type");
    TimeKeeps(s1.fields, "decision_type");
    WinnersKeep(s2.fields, "finish_type");
    WinnersKeep(s2.fields, "decision_type");
  }

  /** `handle_results` writes no field but the finish and decision types. */
  lemma {:induction false} ResultsKeep(f: Fields, k: string)
    requires k != "decision_type" && k != "finish_type"
    ensures Get(HandleResults(f).fields, k) == Get(f, k)
  {
  }

  /** `handle_time` writes no field but the two durations. */
  lemma {:induction false} TimeKeeps(f: Fields, k: string)
    requires k != "time_scheduled" && k != "total_duration"
    ensures Get(HandleTime(f).fields, k) == Get(f, k)
  {
  }

  /** `handle_winners_and_losers` writes no field but winner, loser, colour and result. */
  lemma {:induction false} WinnersKeep(f: Fields, k: string)
    requires k != "winner_id" && k != "loser_id" && k != "winner_color" && k != "result_type"
    ensures Get(HandleWinnersAndLosers(f).fields, k) == Get(f, k)
    ensures HandleWinnersAndLosers(f).error.None? ==>
      Get(HandleWinnersAndLosers(f).fields, "result_type") in {Str("Win"), Str("Draw"), Str("NC")}
  {
    var f1 := f["winner_id" := Null]["loser_id" := Null]["winner_color" := Null];
    assert Get(f1, k) == Get(f, k);
    var status := GetOr(f1, "red_status", Str(""));
    if status.Str? {
      OutcomeKeeps(f1, Strip(status.s), k);
    }
  }

  lemma {:induction false} OutcomeKeeps(f1: Fields, s: string, k: string)
    requires k != "winner_id" && k != "loser_id" && k != "winner_color" && k != "result_type"
    ensures Get(RecordOutcome(f1, s).fields, k) == Get(f1, k)
    ensures RecordOutcome(f1, s).error.None? ==>
      Get(RecordOutcome(f1, s).fields, "result_type") in {Str("Win"), Str("Draw"), Str("NC")}
    ensures s != "W" && s != "L" ==>
      (RecordOutcome(f1, s).error.None?
       && Get(RecordOutcome(f1, s).fields, "result_type") == Str(if s == "D" then "Draw" else "NC"))
  {
    var (w, l) := if s == "W" then ("red_fighter_id", "blue_fighter_id") else ("blue_fighter_id", "red_fighter_id");
    if s == "W" || s == "L" {
      if w in f1 {
        var f2 := f1["winner_id" := f1[w]];
        assert Get(f2, k) == Get(f1, k);
        if l in f2 {
          var f3 := f2["loser_id" := f2[l]]["result_type" := Str("Win")]["winner_color" := Str(if s == "W" then "Red" else "Blue")];
          assert RecordOutcome(f1, s) == KeepReferee(f3);
          assert Get(f3, k) == Get(f1, k);
        } else {
          assert RecordOutcome(f1, s) == Step(f2, Some(KeyError(l)));
        }
      } else {
        assert RecordOutcome(f1, s) == Step(f1, Some(KeyError(w)));
      }
    } else {
      var r := if s == "D" then "Draw" else "NC";
      assert RecordOutcome(f1, s) == KeepReferee(f1["result_type" := Str(r)]);
    }
  }

  /**
   * A bout the red corner drew, whose method reads as a decision and whose
   * result was loaded as None, is recorded as a Draw with finish type "DEC"
   * (when the steps do not raise).
   */
  lemma {:induction false} DrawRecordedAsDecision(f: Fields)
    requires Get(f, "event_status") != Str("upcoming") && Get(f, "result_type") == Null
    requires Get(f, "method_raw").Str? && FinishType(Lower(Get(f, "method_raw").s)) == "DEC"
    requires Get(f, "red_status") == Str("D")
    requires ProcessFight(f).error.None?
    ensures Get(ProcessFight(f).fields, "result_type") == Str("Draw")
    ensures Get(ProcessFight(f).fields, "finish_type") == Str("DEC")
  {
    ResultsByKeyword(f);
    var s1 := HandleResults(f);
    var s2 := HandleTime(s1.fields);
    assert ProcessFight(f) == HandleWinnersAndLosers(s2.fields);
    TimeKeeps(s1.fields, "finish_type");
    TimeKeeps(s1.fields, "red_status");
    WinnersKeep(s2.fields, "finish_type");
    ResultsKeep(f, "red_status");
    DrawnStatus(s2.fields);
  }

  /** A red status of "D" records a Draw. */
  lemma {:induction false} DrawnStatus(g: Fields)
    requires Get(g, "red_status") == Str("D")
    ensures Get(HandleWinnersAndLosers(g).fields, "result_type") == Str("Draw")
  {
    var f1 := g["winner_id" := Null]["loser_id" := Null]["winner_color" := Null];
    assert GetOr(f1, "red_status", Str("")) == Str("D");
    StripNoSpaces("D");
    assert HandleWinnersAndLosers(g) == RecordOutcome(f1, "D");
    OutcomeKeeps(f1, "D", "finish_type");
  }

  /** A lower-cased method that starts with "decision" and has no 'k' or 'u' reads as a decision. */
  lemma {:induction false} DecisionText(text: string)
    requires 'k' !in text && 'u' !in text && StartsWith(text, "decision")
    ensures FinishType(text) == "DEC"
  {
    NotContainsChar(text, "ko", 0);
    NotContainsChar(text, "submission", 1);
  }

  /** "Decision - Split", the method of a split draw, reads as a decision. */
  lemma {:induction false} SplitDrawText()
    ensures FinishType(Lower("Decision - Split")) == "DEC"
  {
    var text := Lower("Decision - Split");
    assert text == "decision - split";
    DecisionText(text);
  }

  /**
   * The order the validation's allowed finish types ("Draw", "NC") call for:
   * resolve the result from the red status first, so that `handle_results`
   * sees it, then classify the finish, then compute the durations.
   */
  function ProcessFightCorrected(f: Fields): (r: Step)
    ensures r.error.None? && Get(f, "event_status") != Str("upcoming") ==>
      Get(r.fields, "result_type") in {Str("Win"), Str("Draw"), Str("NC")}
      && Get(r.fields, "finish_type") in {Str("KO/TKO"), Str("SUB"), Str("DEC"), Str("DQ"), Str("OTHER"), Str("NC"), Str("Draw")}
  {
    if Get(f, "event_status") == Str("upcoming") then Step(f, None)
    else
      var s1 := HandleWinnersAndLosers(f);
      if s1.error.Some? then s1
      else
        var s2 := HandleResults(s1.fields);
        if s2.error.Some? then s2
        else
          TimeKeeps(s2.fields, "result_type");
          TimeKeeps(s2.fields, "finish_type");
          HandleTime(s2.fields)
  }

  /**
   * In the corrected order a drawn bout has finish type "Draw" and a bout
   * with any status but W, L, D has finish type "NC", whatever its method text.
   */
  lemma {:induction false} CorrectedFinishOfResult(f: Fields)
    requires Get(f, "event_status") != Str("upcoming")
    requires GetOr(f, "red_status", Str("")).Str?
    requires var s := Strip(GetOr(f, "red_status", Str("")).s); s != "W" && s != "L"
    requires ProcessFightCorrected(f).error.None?
    ensures var s := Strip(GetOr(f, "red_status", Str("")).s); var g := ProcessFightCorrected(f).fields;
      Get(g, "result_type") == Get(g, "finish_type") == Str(if s == "D" then "Draw" else "NC")
  {
    var st := Strip(GetOr(f, "red_status", Str("")).s);
    WinnersOfDrawOrNc(f, st);
    KnownResultThenTime(HandleWinnersAndLosers(f).fields);
  }

  /** A status other than W or L records a Draw or NC result and cannot fail. */
  lemma {:induction false} WinnersOfDrawOrNc(f: Fields, st: string)
    requires GetOr(f, "red_status", Str("")).Str? && Strip(GetOr(f, "red_status", Str("")).s) == st
    requires st != "W" && st != "L"
    ensures HandleWinnersAndLosers(f).error.None?
    ensures Get(HandleWinnersAndLosers(f).fields, "result_type") == Str(if st == "D" then "Draw" else "NC")
  {
    var f1 := f["winner_id" := Null]["loser_id" := Null]["winner_color" := Null];
    assert GetOr(f1, "red_status", Str("")) == GetOr(f, "red_status", Str(""));
    OutcomeKeeps(f1, st, "");
    assert HandleWinnersAndLosers(f) == RecordOutcome(f1, st);
  }

  /** After a Draw or NC result, `handle_results` and `handle_time` leave it as result and finish type. */
  lemma {:induction false} KnownResultThenTime(g: Fields)
    requires Get(g, "result_type") in {Str("NC"), Str("Draw")}
    requires HandleResults(g).error.None?
    ensures var t := HandleTime(HandleResults(g).fields).fields;
      Get(t, "result_type") == Get(t, "finish_type") == Get(g, "result_type")
  {
    ResultsOfKnownResult(g);
    TimeKeeps(HandleResults(g).fields, "finish_type");
    TimeKeeps(HandleResults(g).fields, "result_type");
  }

  // ---------------------------------------------------------------------
  // FightUpcomingProcessorPipeline
  // ---------------------------------------------------------------------

  /** The outcome fields cleared on a bout that has not been fought, in the order they are assigned. */
  const UpcomingFightKeys: seq<string> := ["red_status", "blue_status", "winner_id", "loser_id",
    "winner_color", "result_type", "end_round", "end_round_time", "rounds_scheduled", "referee",
    "time_scheduled", "total_duration", "method_raw", "finish_type", "decision_type"]

  const UpcomingFightFields: set<string> := KeySet(UpcomingFightKeys)

  /** `FightUpcomingProcessorPipeline.process_item` on a `FightItem`: unless completed, clear the outcome. */
  function UpcomingFight(f: Fields): (r: Fields)
    ensures Get(r, "event_status") == Get(f, "event_status")
    ensures forall k :: k in f && k !in UpcomingFightFields ==> k in r && r[k] == f[k]
  {
    assert "event_status" !in UpcomingFightFields;
    if Get(f, "event_status") == Str("completed") then f else NullOut(f, UpcomingFightFields)
  }

  method UpcomingFightItem(item: Item)
    requires item.Valid() && item.declared == ScrapyFields(item.kind)
    modifies item
    ensures item.Valid()
    ensures item.fields == if item.kind == FightItem then UpcomingFight(old(item.fields)) else old(item.fields)
  {
    if item.kind != FightItem || Get(item.fields, "event_status") == Str("completed") {
      return;
    }
    UpcomingFightKeysDeclared();
    item.ClearAll(UpcomingFightKeys);
  }

  lemma {:induction false} UpcomingFightKeysDeclared()
    ensures forall i :: 0 <= i < |UpcomingFightKeys| ==> UpcomingFightKeys[i] in ScrapyFields(FightItem)
  {
  }

  /**
   * A bout that is not completed keeps its identity fields and has every
   * outcome field None; a completed bout is untouched; running it twice is
   * the same as once.
   */
  lemma {:induction false} UpcomingFightClears(f: Fields, k: string)
    ensures Get(f, "event_status") == Str("completed") ==> UpcomingFight(f) == f
    ensures Get(f, "event_status") != Str("completed") && k in UpcomingFightFields ==> UpcomingFight(f)[k] == Null
    ensures k !in UpcomingFightFields ==> Get(UpcomingFight(f), k) == Get(f, k)
    ensures UpcomingFight(UpcomingFight(f)) == UpcomingFight(f)
  {
    assert "event_status" !in UpcomingFightKeys;
    NullOutFacts(f, UpcomingFightFields, k);
    NullOutFacts(f, UpcomingFightFields, "event_status");
  }
}
