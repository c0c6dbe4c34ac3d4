/**
 * The helpers of the older crawler's fighter spider
 * (`crawler/crawler/spiders/fighter_spider.py`) that do not touch the page:
 * the scheduled-time conversions, the choice of opponent and stat column, the
 * "X of Y" reader `post_process`, and `populate_total_stats`, which writes one
 * row of the totals table into the item. Its `convert_seconds` and
 * `extract_scheduled_rounds` are the same code as the loaders' and are the
 * `Loaders` definitions.
 */
module FighterSpider {
  import opened Wrappers
  import opened PyText
  import opened Items
  import Loaders
  import ScrapyPipelines

  // ---------------------------------------------------------------------
  // convert_rounds_seconds
  // ---------------------------------------------------------------------

  /** `convert_rounds_seconds`: five minutes for each scheduled round. */
  function ConvertRoundsSeconds(text: string): (r: Result<int, PyError>)
    ensures r.Err? <==> Loaders.ExtractScheduledRounds(text).Err?
    ensures r.Err? ==> r.error == Loaders.ExtractScheduledRounds(text).error
    ensures r.Ok? ==> r.value % 300 == 0
  {
    match Loaders.ExtractScheduledRounds(text)
    case Err(e) => Err(e)
    case Ok(rounds) => Ok(rounds * 5 * 60)
  }

  /** A format such as "5 Rnd (5-5-5-5-5)" is scheduled for 300 seconds a round. */
  lemma {:induction false} ScheduledSecondsOf(n: nat, rest: string)
    requires rest == [] || IsSpace(rest[0])
    ensures ConvertRoundsSeconds(ShowNat(n) + rest) == Ok(300 * n)
  {
    Loaders.ScheduledRoundsOf(n, rest);
  }

  // ---------------------------------------------------------------------
  // determine_opponent
  // ---------------------------------------------------------------------

  /** The other fighter of a bout, and the column (1 red, 2 blue) holding the current fighter's stats. */
  datatype Opponent = Opponent(id: string, name: string, column: int)

  /** `determine_opponent`: the current fighter is red exactly when the names are equal. */
  function DetermineOpponent(current: string, redName: string, redId: string, blueName: string, blueId: string)
    : (r: Opponent)
    ensures r.column == 1 || r.column == 2
    ensures r.column == 1 <==> r.name == blueName && r.id == blueId && current == redName
  {
    if current == redName then Opponent(blueId, blueName, 1) else Opponent(redId, redName, 2)
  }

  /**
   * For a bout between two differently named fighters, each fighter's row
   * names the other as opponent and reads the other column; so the two rows a
   * bout produces are each other's opponents.
   */
  lemma {:induction false} OpponentsPair(redName: string, redId: string, blueName: string, blueId: string)
    requires redName != blueName
    ensures var r := DetermineOpponent(redName, redName, redId, blueName, blueId);
      var b := DetermineOpponent(blueName, redName, redId, blueName, blueId);
      r.name == blueName && r.id == blueId && b.name == redName && b.id == redId
      && r.column != b.column
      && DetermineOpponent(r.name, redName, redId, blueName, blueId).name == redName
      && DetermineOpponent(b.name, redName, redId, blueName, blueId).name == blueName
  {
  }

  /**
   * A name matching neither corner is taken for blue: red becomes the
   * opponent and the blue column is read.
   */
  lemma {:induction false} UnmatchedNameReadsBlue(current: string, redName: string, redId: string, blueName: string, blueId: string)
    requires current != redName
    ensures DetermineOpponent(current, redName, redId, blueName, blueId) == Opponent(redId, redName, 2)
  {
  }

  // ---------------------------------------------------------------------
  // post_process
  // ---------------------------------------------------------------------

  /**
   * `post_process`: the stripped text must contain a lower-case "of" and split
   * at it into exactly two pieces `int()` accepts; None and anything else
   * give `(None, None)`.
   */
  function PostProcess(value: Option<string>): (r: (Option<int>, Option<int>))
    ensures r.0.None? <==> r.1.None?
  {
    if value.None? then (None, None)
    else
      var v := Strip(value.value);
      if !Contains(v, "of") then (None, None)
      else
        var parts := SplitOn(v, "of");
        if |parts| != 2 then (None, None)
        else match (ParseInt(Strip(parts[0])), ParseInt(Strip(parts[1])))
          case (Some(landed), Some(attempted)) => (Some(landed), Some(attempted))
          case _ => (None, None)
  }

  /** The counts read from a stripped text that splits at "of" into two pieces. */
  lemma {:induction false} PostProcessOfPieces(s: string, p: string, q: string, a: int, b: int)
    requires Contains(Strip(s), "of") && SplitOn(Strip(s), "of") == [p, q]
    requires ParseInt(Strip(p)) == Some(a) && ParseInt(Strip(q)) == Some(b)
    ensures PostProcess(Some(s)) == (Some(a), Some(b))
  {
  }

  /**
   * `X of Y` with any whitespace around the numbers reads as the two numbers,
   * and the newer pipeline's `split` reads the same counts from it.
   */
  lemma {:induction false} PostProcessRoundTrip(a: nat, b: nat, w1: string, w2: string, w3: string, w4: string)
    requires AllSpaces(w1) && AllSpaces(w2) && AllSpaces(w3) && AllSpaces(w4)
    ensures PostProcess(Some(w1 + ShowNat(a) + w2 + "of" + w3 + ShowNat(b) + w4)) == (Some(a), Some(b))
    ensures ScrapyPipelines.SplitCounts(Str(w1 + ShowNat(a) + w2 + "of" + w3 + ShowNat(b) + w4))
      == (Int(a), Int(b))
  {
    var d1, d2 := ShowNat(a), ShowNat(b);
    var s := w1 + d1 + w2 + "of" + w3 + d2 + w4;
    PaddedCountsStrip(s, d1, d2, w1, w2, w3, w4);
    ScrapyPipelines.CountsTextSplits(d1, d2, w2, w3);
    ScrapyPipelines.CountsPiecesStrip(d1, d2, w2, w3);
    ParseShowNat(a);
    ParseShowNat(b);
    PostProcessOfPieces(s, d1 + w2, w3 + d2, a, b);
    assert ScrapyPipelines.IsOfWord("of");
    ScrapyPipelines.SplitRoundTrip(a, b, w1, w2, "of", w3, w4);
  }

  /** Stripping "X of Y" drops exactly the outer padding. */
  lemma {:induction false} PaddedCountsStrip(s: string, d1: string, d2: string, w1: string, w2: string, w3: string, w4: string)
    requires AllSpaces(w1) && AllSpaces(w4)
    requires |d1| > 0 && |d2| > 0 && IsDigit(d1[0]) && IsDigit(d2[|d2| - 1])
    requires s == w1 + d1 + w2 + "of" + w3 + d2 + w4
    ensures Strip(s) == (d1 + w2) + "of" + (w3 + d2)
  {
    var m := (d1 + w2) + "of" + (w3 + d2);
    assert s == w1 + m + w4;
    assert m[0] == d1[0] && m[|m| - 1] == d2[|d2| - 1];
    StripPadded(w1, m, w4);
  }

  /** Digits around " OF " are already stripped and hold no lower-case 'o'. */
  lemma {:induction false} UpperOfText(d1: string, d2: string)
    requires |d1| > 0 && |d2| > 0 && AllDigits(d1) && AllDigits(d2)
    ensures var s := d1 + " OF " + d2;
      Strip(s) == s && 'o' !in s
  {
    var s := d1 + " OF " + d2;
    UpperOfStripped(s, d1, d2);
    forall i | 0 <= i < |s| ensures s[i] != 'o' {
      if i < |d1| {
        assert s[i] == d1[i];
      } else if i >= |d1| + 4 {
        assert s[i] == d2[i - |d1| - 4];
      }
    }
  }

  lemma {:induction false} UpperOfStripped(s: string, d1: string, d2: string)
    requires |d1| > 0 && |d2| > 0 && IsDigit(d1[0]) && IsDigit(d2[|d2| - 1])
    requires s == d1 + " OF " + d2
    ensures Strip(s) == s
  {
    assert s[0] == d1[0] && s[|s| - 1] == d2[|d2| - 1];
    StripPadded([], s, []);
    assert [] + s + [] == s;
  }

  /** Text whose stripped form lacks "of" has no counts. */
  lemma {:induction false} PostProcessWithoutOf(s: string)
    requires !Contains(Strip(s), "of")
    ensures PostProcess(Some(s)) == (None, None)
  {
  }

  /**
   * Unlike the newer pipeline's `split`, which lower-cases first,
   * `post_process` does not read "X OF Y".
   */
  lemma {:induction false} PostProcessCaseSensitive(a: nat, b: nat)
    ensures PostProcess(Some(ShowNat(a) + " OF " + ShowNat(b))) == (None, None)
    ensures ScrapyPipelines.SplitCounts(Str(ShowNat(a) + " OF " + ShowNat(b))) == (Int(a), Int(b))
  {
    var d1, d2 := ShowNat(a), ShowNat(b);
    var s := d1 + " OF " + d2;
    UpperOfText(d1, d2);
    NotContainsChar(s, "of", 0);
    PostProcessWithoutOf(s);
    UpperOfCounts(a, b);
  }

  lemma {:induction false} UpperOfCounts(a: nat, b: nat)
    ensures ScrapyPipelines.SplitCounts(Str(ShowNat(a) + " OF " + ShowNat(b))) == (Int(a), Int(b))
  {
    assert ScrapyPipelines.IsOfWord("OF");
    ScrapyPipelines.SplitRoundTrip(a, b, [], " ", "OF", " ", []);
    UpperOfLayout(ShowNat(a), ShowNat(b));
  }

  lemma {:induction false} UpperOfLayout(x: string, y: string)
    ensures [] + x + " " + "OF" + " " + y + [] == x + " OF " + y
  {
  }

  // ---------------------------------------------------------------------
  // populate_total_stats
  // ---------------------------------------------------------------------

  /** The labels of the totals table, in column order. */
  const TotalLabels: seq<string> := ["knockdowns", "sig_str", "sig_str_percentage", "tot_str", "td",
    "td_percentage", "sub_attempts", "reversals", "ctrl"]

  /** The labels read as "X of Y". */
  predicate Counted(stat: string) {
    stat == "sig_str" || stat == "tot_str" || stat == "td"
  }

  /** The fields `populate_total_stats` writes for a stat. */
  function Targets(stat: string): set<string> {
    if Counted(stat) then {stat + "_landed", stat + "_attempted"}
    else if stat == "ctrl" then {"ctrl_time", "ctrl_seconds"}
    else {stat}
  }

  /** `item[k] = v` on an item of a class declaring `declared`. */
  function Assign(declared: set<string>, f: Fields, k: string, v: Value): (s: Step)
    ensures s.error.None? <==> k in declared
  {
    if k in declared then Step(f[k := v], None) else Step(f, Some(KeyError(k)))
  }

  /** The next assignment, unless an earlier one raised. */
  function AndAssign(declared: set<string>, s: Step, k: string, v: Value): Step {
    if s.error.Some? then s else Assign(declared, s.fields, k, v)
  }

  function OptionInt(n: Option<int>): Value {
    if n.Some? then Int(n.value) else Null
  }

  /**
   * `populate_total_stats`: the counted labels store landed then attempted,
   * "ctrl" stores the raw time then its seconds (a time `convert_seconds`
   * rejects raises before the second store), and any other stat is stored
   * as its text.
   */
  function TotalStats(declared: set<string>, f: Fields, stat: string, text: string): (r: Step)
    ensures r.fields.Keys <= f.Keys + (Targets(stat) * declared)
    ensures r.error.None? ==> Targets(stat) <= declared
  {
    if Counted(stat) then
      var parsed := PostProcess(Some(text));
      AndAssign(declared, Assign(declared, f, stat + "_landed", OptionInt(parsed.0)),
                stat + "_attempted", OptionInt(parsed.1))
    else if stat == "ctrl" then
      var s := Assign(declared, f, "ctrl_time", Str(text));
      if s.error.Some? then s
      else match Loaders.ConvertSeconds(text)
        case Err(e) => Step(s.fields, Some(e))
        case Ok(n) => Assign(declared, s.fields, "ctrl_seconds", OptionInt(n))
    else Assign(declared, f, stat, Str(text))
  }

  method PopulateTotalStats(item: Item, stat: string, text: string) returns (err: Option<PyError>)
    requires item.Valid()
    modifies item
    ensures item.Valid()
    ensures Step(item.fields, err) == TotalStats(item.declared, old(item.fields), stat, text)
  {
    if Counted(stat) {
      var parsed := PostProcess(Some(text));
      err := item.TrySet(stat + "_landed", OptionInt(parsed.0));
      if err.Some? {
        return;
      }
      err := item.TrySet(stat + "_attempted", OptionInt(parsed.1));
    } else if stat == "ctrl" {
      err := item.TrySet("ctrl_time", Str(text));
      if err.Some? {
        return;
      }
      var seconds := Loaders.ConvertSeconds(text);
      if seconds.Err? {
        return Some(seconds.error);
      }
      err := item.TrySet("ctrl_seconds", OptionInt(seconds.value));
    } else {
      err := item.TrySet(stat, Str(text));
    }
  }

  /**
   * Only the stat's own fields change; on a counted stat they hold the
   * counts `post_process` reads, on "ctrl" the raw time and its seconds.
   */
  lemma {:induction false} TotalStatsWrites(declared: set<string>, f: Fields, stat: string, text: string, k: string)
    requires Targets(stat) <= declared
    ensures var s := TotalStats(declared, f, stat, text);
      (k !in Targets(stat) ==> Get(s.fields, k) == Get(f, k))
      && (s.error.Some? <==> stat == "ctrl" && Loaders.ConvertSeconds(text).Err?)
      && (Counted(stat) ==>
            Get(s.fields, stat + "_landed") == OptionInt(PostProcess(Some(text)).0)
            && Get(s.fields, stat + "_attempted") == OptionInt(PostProcess(Some(text)).1))
      && (stat == "ctrl" ==> Get(s.fields, "ctrl_time") == Str(text))
      && (!Counted(stat) && stat != "ctrl" ==> Get(s.fields, stat) == Str(text))
  {
    if Counted(stat) {
      TotalCountedWrites(declared, f, stat, text, k);
    } else if stat == "ctrl" {
      TotalCtrlWrites(declared, f, text, k);
    } else {
      TotalOtherWrites(declared, f, stat, text, k);
    }
  }

  /** `populate_total_stats` on a label read as "X of Y". */
  lemma {:induction false} TotalCountedWrites(declared: set<string>, f: Fields, stat: string, text: string, k: string)
    requires Counted(stat) && Targets(stat) <= declared
    ensures var s := TotalStats(declared, f, stat, text);
      s.error.None?
      && (k !in Targets(stat) ==> Get(s.fields, k) == Get(f, k))
      && Get(s.fields, stat + "_landed") == OptionInt(PostProcess(Some(text)).0)
      && Get(s.fields, stat + "_attempted") == OptionInt(PostProcess(Some(text)).1)
  {
    assert stat + "_landed" != stat + "_attempted" by {
      assert (stat + "_landed")[|stat| + 1] == 'l';
      assert (stat + "_attempted")[|stat| + 1] == 'a';
    }
  }

  /** `populate_total_stats` on "ctrl". */
  lemma {:induction false} TotalCtrlWrites(declared: set<string>, f: Fields, text: string, k: string)
    requires Targets("ctrl") <= declared
    ensures var s := TotalStats(declared, f, "ctrl", text);
      (k !in Targets("ctrl") ==> Get(s.fields, k) == Get(f, k))
      && (s.error.Some? <==> Loaders.ConvertSeconds(text).Err?)
      && Get(s.fields, "ctrl_time") == Str(text)
  {
    assert !Counted("ctrl");
  }

  /** `populate_total_stats` on any other label. */
  lemma {:induction false} TotalOtherWrites(declared: set<string>, f: Fields, stat: string, text: string, k: string)
    requires !Counted(stat) && stat != "ctrl" && Targets(stat) <= declared
    ensures var s := TotalStats(declared, f, stat, text);
      s.error.None? && (k != stat ==> Get(s.fields, k) == Get(f, k)) && Get(s.fields, stat) == Str(text)
  {
  }

  /** Every field the totals table writes is one the older crawler's `FighterFightItem` declares. */
  lemma {:induction false} TotalsFitFighterFightItem()
    ensures forall i :: 0 <= i < |TotalLabels| ==> Targets(TotalLabels[i]) <= CrawlerFields(FighterFightItem)
  {
    forall i | 0 <= i < |TotalLabels|
      ensures Targets(TotalLabels[i]) <= CrawlerFields(FighterFightItem)
    {
      var l := TotalLabels[i];
      if l == "sig_str" {
        assert l + "_landed" == "sig_str_landed" && l + "_attempted" == "sig_str_attempted";
      } else if l == "tot_str" {
        assert l + "_landed" == "tot_str_landed" && l + "_attempted" == "tot_str_attempted";
      } else if l == "td" {
        assert l + "_landed" == "td_landed" && l + "_attempted" == "td_attempted";
      }
    }
  }

  /**
   * `populate_total_stats` given a `FightItem` of this crawler, which declares
   * none of the totals: the first column already raises `KeyError` and leaves
   * the item as it was. (`parse_fights` never gets this far: its
   * `populate_identity` raises first, `IdentityRaisesOnFightItem`.)
   */
  lemma {:induction false} TotalsRaiseOnFightItem(f: Fields, text: string)
    ensures TotalStats(CrawlerFields(FightItem), f, TotalLabels[0], text) == Step(f, Some(KeyError("knockdowns")))
  {
  }

  /** The fields `populate_identity` assigns. */
  const IdentityFields: set<string> := {"fight_id", "fighter_name", "fighter_id", "opponent_name", "opponent_id"}

  /**
   * `populate_identity`: the bout id (the last '/' segment of the page URL),
   * then the current fighter's name and id and the opponent's name and id,
   * in that order; the first undeclared field raises `KeyError`.
   */
  function PopulateIdentity(declared: set<string>, f: Fields, url: string, currentId: Value, currentName: Value,
                            opponentId: Value, opponentName: Value): (r: Step)
    ensures r.error.None? <==> IdentityFields <= declared
    ensures r.fields.Keys <= f.Keys + IdentityFields
  {
    var s := Assign(declared, f, "fight_id", Str(Loaders.Last(SplitOn(url, "/"))));
    var s := AndAssign(declared, s, "fighter_name", currentName);
    var s := AndAssign(declared, s, "fighter_id", currentId);
    var s := AndAssign(declared, s, "opponent_name", opponentName);
    AndAssign(declared, s, "opponent_id", opponentId)
  }

  /** An item declaring the five identity fields gets all five, and nothing else changes. */
  lemma {:induction false} IdentityStored(declared: set<string>, f: Fields, url: string, currentId: Value, currentName: Value,
                                          opponentId: Value, opponentName: Value)
    requires IdentityFields <= declared
    ensures var s := PopulateIdentity(declared, f, url, currentId, currentName, opponentId, opponentName);
      s.error.None?
      && s.fields == f["fight_id" := Str(Loaders.Last(SplitOn(url, "/")))]["fighter_name" := currentName]
           ["fighter_id" := currentId]["opponent_name" := opponentName]["opponent_id" := opponentId]
  {
  }

  /**
   * The `FightItem` `parse_fights` builds declares `fight_id` but not
   * `fighter_name` (its per-fighter identity fields are commented out), so
   * `populate_identity` stores the bout id and then raises
   * `KeyError("fighter_name")`, before any result or total is read.
   */
  lemma {:induction false} IdentityRaisesOnFightItem(f: Fields, url: string, currentId: Value, currentName: Value,
                                                     opponentId: Value, opponentName: Value)
    ensures PopulateIdentity(CrawlerFields(FightItem), f, url, currentId, currentName, opponentId, opponentName)
      == Step(f["fight_id" := Str(Loaders.Last(SplitOn(url, "/")))], Some(KeyError("fighter_name")))
  {
  }

  /** A control time shown as "--" is stored raw, then its conversion raises `ValueError`. */
  lemma {:induction false} ControlDashesRaise(declared: set<string>, f: Fields)
    requires "ctrl_time" in declared
    ensures TotalStats(declared, f, "ctrl", "--") == Step(f["ctrl_time" := Str("--")], Some(ValueError))
  {
    Loaders.ConvertSecondsOfDashes();
  }

  /** A printed control time is stored raw and as its number of seconds. */
  lemma {:induction false} ControlTimeSeconds(declared: set<string>, f: Fields, n: nat)
    requires "ctrl_time" in declared && "ctrl_seconds" in declared
    ensures var s := TotalStats(declared, f, "ctrl", Loaders.ShowClock(n));
      s.error.None? && Get(s.fields, "ctrl_time") == Str(Loaders.ShowClock(n))
      && Get(s.fields, "ctrl_seconds") == Int(n)
  {
    Loaders.ConvertSecondsOfClock(n);
  }
}
