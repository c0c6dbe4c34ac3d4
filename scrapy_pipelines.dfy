/**
 * The item pipelines of the current crawler (`src/scrapy/crawler/pipelines.py`):
 * the fighter attribute parsers, the fight outcome and duration rules, the
 * nulling of upcoming bouts, the "X of Y" strike splitter and the validator.
 * A pipeline changes the item it is handed in place; each such step is a
 * method on an `Item`, specified by a function on the item's fields about
 * which the lemmas speak.
 */
module ScrapyPipelines {
  import opened Wrappers
  import opened PyText
  import opened Items

  // ---------------------------------------------------------------------
  // FighterProcessorPipeline: height, weight and reach
  // ---------------------------------------------------------------------

  predicate IsInchChar(c: char) {
    IsDigit(c) || c == '"'
  }

  predicate InchChars(s: string) {
    forall i :: 0 <= i < |s| ==> IsInchChar(s[i])
  }

  /** The longest prefix of `s` drawn from `[\d"]`. */
  function InchRun(s: string): (r: string)
    ensures |r| <= |s| && r == s[..|r|] && InchChars(r)
    ensures |r| == |s| || !IsInchChar(s[|r|])
    decreases |s|
  {
    if |s| == 0 || !IsInchChar(s[0]) then [] else [s[0]] + InchRun(s[1..])
  }

  lemma {:induction false} InchRunOf(g: string, t: string)
    requires InchChars(g) && (t == [] || !IsInchChar(t[0]))
    ensures InchRun(g + t) == g
    decreases |g|
  {
    if |g| > 0 {
      assert (g + t)[1..] == g[1..] + t;
      InchRunOf(g[1..], t);
    } else {
      assert g + t == t;
    }
  }

  /**
   * The way `re.match(r"(\\d+)'[\\s]*([\\d\\"]+)", h)` splits `h`: feet digits
   * `f`, a quote, whitespace `sp`, the inch group `g`, and the unmatched rest.
   */
  predicate HeightShape(h: string, f: string, sp: string, g: string, rest: string) {
    h == f + "'" + sp + g + rest
    && |f| > 0 && AllDigits(f) && AllSpaces(sp)
    && |g| > 0 && InchChars(g) && (rest == [] || !IsInchChar(rest[0]))
  }

  /** `re.match(r"(\\d+)'[\\s]*([\\d\\"]+)", h)`: the two groups, or None when it fails. */
  function HeightMatch(h: string): (m: Option<(string, string)>)
    ensures m.Some? ==> |m.value.0| > 0 && AllDigits(m.value.0) && |m.value.1| > 0 && InchChars(m.value.1)
  {
    var f := DigitPrefix(h);
    if |f| == 0 || |f| == |h| || h[|f|] != '\'' then None
    else
      var g := InchGroup(h[|f| + 1..]);
      if |g| == 0 then None else Some((f, g))
  }

  /** `[\s]*([\d\"]*)` after the quote: skip whitespace, then the longest run of inch characters. */
  function InchGroup(r: string): (g: string)
    ensures InchChars(g)
  {
    InchRun(r[LeadingSpaces(r)..])
  }

  /** After whitespace, the inch group is the run of inch characters that follows. */
  lemma {:induction false} InchGroupOf(sp: string, g: string, rest: string)
    requires AllSpaces(sp) && |g| > 0 && InchChars(g) && (rest == [] || !IsInchChar(rest[0]))
    ensures InchGroup(sp + (g + rest)) == g
  {
    assert !IsSpace(g[0]) by {
      assert IsInchChar(g[0]);
    }
    LeadingSpacesOf(sp, g + rest);
    assert (sp + (g + rest))[|sp|..] == g + rest;
    InchRunOf(g, rest);
  }

  /** Cutting a string at the feet, the quote, the whitespace and the inch group. */
  lemma {:induction false} Pieces(h: string, f: string, after: string, n: nat, g: string)
    requires |f| < |h| && h[..|f|] == f && h[|f|] == '\'' && after == h[|f| + 1..]
    requires n <= |after| && |g| <= |after| - n && g == after[n..][..|g|]
    ensures h == f + "'" + after[..n] + g + after[n..][|g|..]
  {
    var a, rest := after[..n], after[n..][|g|..];
    assert after[n..] == g + rest;
    assert after == a + (g + rest);
    assert h == f + ("'" + after) by {
      assert h == h[..|f|] + ([h[|f|]] + h[|f| + 1..]);
    }
    SeqAssoc5(f, "'", a, g, rest);
  }

  lemma {:induction false} SeqAssoc5(a: string, b: string, c: string, d: string, e: string)
    ensures a + b + c + d + e == a + (b + (c + (d + e)))
  {
  }

  /** A match splits the text as the pattern says: the whitespace and the rest it skipped. */
  lemma {:induction false} HeightMatchSound(h: string) returns (sp: string, rest: string)
    requires HeightMatch(h).Some?
    ensures HeightShape(h, HeightMatch(h).value.0, sp, HeightMatch(h).value.1, rest)
  {
    var f := DigitPrefix(h);
    var after := h[|f| + 1..];
    var n := LeadingSpaces(after);
    var g := InchGroup(after);
    sp := after[..n];
    rest := after[n..][|g|..];
    Pieces(h, f, after, n, g);
  }

  /** Whenever the text has the pattern's shape, the match finds exactly those groups. */
  lemma {:induction false} HeightMatchComplete(h: string, f: string, sp: string, g: string, rest: string)
    requires HeightShape(h, f, sp, g, rest)
    ensures HeightMatch(h) == Some((f, g))
  {
    var after := ShapeAfterFeet(h, f, sp, g, rest);
    DigitPrefixOf(f, after);
    InchGroupOf(sp, g, rest);
  }

  /** The text after the feet digits starts with the quote, and after the quote come the whitespace, the group and the rest. */
  lemma {:induction false} ShapeAfterFeet(h: string, f: string, sp: string, g: string, rest: string) returns (after: string)
    requires h == f + "'" + sp + g + rest
    ensures h == f + after && after != [] && after[0] == '\''
    ensures |f| < |h| && h[|f|] == '\'' && h[|f| + 1..] == sp + (g + rest)
  {
    after := "'" + sp + g + rest;
    SeqAssoc5(f, "'", sp, g, rest);
    assert h == f + ("'" + (sp + (g + rest)));
    assert after == "'" + (sp + (g + rest));
    assert h[|f| + 1..] == sp + (g + rest);
  }

  lemma {:induction false} UnquotedDigits(g: string)
    requires InchChars(g)
    ensures AllDigits(ReplaceChar(g, '"', ""))
    ensures |ReplaceChar(g, '"', "")| == 0 <==> NoDigits(g)
    decreases |g|
  {
    if |g| > 0 {
      UnquotedDigits(g[1..]);
      assert NoDigits(g) <==> !IsDigit(g[0]) && NoDigits(g[1..]) by {
        if NoDigits(g[1..]) && !IsDigit(g[0]) {
          forall i | 0 <= i < |g| ensures !IsDigit(g[i]) {
            if i > 0 {
              assert g[i] == g[1..][i - 1];
            }
          }
        }
        if NoDigits(g) {
          forall i | 0 <= i < |g| - 1 ensures !IsDigit(g[1..][i]) {
            assert g[1..][i] == g[i + 1];
          }
        }
      }
    }
  }

  /** The digits of the inch group: `group(2).replace('"', '')`. */
  function Unquoted(g: string): (d: string)
    requires InchChars(g)
    ensures AllDigits(d) && (|d| == 0 <==> NoDigits(g))
  {
    UnquotedDigits(g);
    ReplaceChar(g, '"', "")
  }

  /**
   * `int(group(2).replace('"', '').strip())`: None where `int()` raises, which
   * is when no digit is left; `InchesValueIsInt` shows this is `ParseInt`.
   */
  function InchesValue(g: string): (n: Option<int>)
    requires InchChars(g)
    ensures n.None? <==> NoDigits(g)
  {
    var d := Unquoted(g);
    if |d| == 0 then None else Some(DigitsValue(d))
  }

  /**
   * `parse_height`: `F' I"` gives `F * 12 + I`; a falsy value or text the
   * pattern does not match gives None; an inch group without digits makes
   * `int()` raise.
   */
  function ParseHeight(v: Value): (r: Result<Option<int>, PyError>)
    ensures r.Ok? && r.value.Some? ==> r.value.value >= 0
    ensures r.Err? ==> (r.error == TypeError <==> !v.Str?) && (r.error == TypeError || r.error == ValueError)
  {
    if !Truthy(v) then Ok(None)
    else if !v.Str? then Err(TypeError)
    else HeightOfGroups(HeightMatch(v.s))
  }

  /** The inches `parse_height` computes from the two groups of a match. */
  function HeightOfGroups(m: Option<(string, string)>): Result<Option<int>, PyError>
    requires m.Some? ==> AllDigits(m.value.0) && InchChars(m.value.1)
  {
    if m.None? then Ok(None)
    else
      match InchesValue(m.value.1)
      case None => Err(ValueError)
      case Some(n) => Ok(Some(DigitsValue(m.value.0) * 12 + n))
  }

  /** The inch conversion is `int()` of the stripped digits: it fails exactly on an empty string. */
  lemma {:induction false} InchesValueIsInt(g: string)
    requires InchChars(g)
    ensures InchesValue(g) == ParseInt(Strip(Unquoted(g)))
  {
    var d := Unquoted(g);
    if |d| > 0 {
      ParseDigits(d);
      assert NoSpaces(d) by {
        forall i | 0 <= i < |d| ensures !IsSpace(d[i]) {
          assert IsDigit(d[i]);
        }
      }
      StripNoSpaces(d);
    } else {
      assert Strip(d) == [];
    }
  }

  /** `F' I"`, with `F` and `I` written in decimal, matches with groups `F` and `I"`. */
  lemma {:induction false} HeightTextMatches(f: string, i: string)
    requires |f| > 0 && AllDigits(f) && |i| > 0 && AllDigits(i)
    ensures InchChars(i + "\"")
    ensures HeightMatch(f + "' " + i + "\"") == Some((f, i + "\""))
  {
    var g := i + "\"";
    assert InchChars(g) by {
      forall k | 0 <= k < |g| ensures IsInchChar(g[k]) {
        if k < |i| {
          assert g[k] == i[k];
        }
      }
    }
    assert f + "' " + i + "\"" == f + "'" + " " + g + [];
    assert AllSpaces(" ");
    HeightMatchComplete(f + "' " + i + "\"", f, " ", g, []);
  }

  /** Removing the closing quote leaves the inch digits. */
  lemma {:induction false} UnquotedInches(i: string)
    requires AllDigits(i)
    ensures InchChars(i + "\"") && Unquoted(i + "\"") == i
    ensures !NoDigits(i + "\"") <==> |i| > 0
  {
    var g := i + "\"";
    assert InchChars(g) by {
      forall k | 0 <= k < |g| ensures IsInchChar(g[k]) {
        if k < |i| {
          assert g[k] == i[k];
        }
      }
    }
    ReplaceCharAppend(i, "\"", '"', "");
    assert '"' !in i by {
      assert forall k :: 0 <= k < |i| ==> IsDigit(i[k]);
    }
  }

  /** The groups `F` and `I"` give `F * 12 + I` inches. */
  lemma {:induction false} InchDigitsValue(f: string, i: string)
    requires AllDigits(f) && |i| > 0 && AllDigits(i)
    ensures InchChars(i + "\"")
    ensures HeightOfGroups(Some((f, i + "\""))) == Ok(Some(DigitsValue(f) * 12 + DigitsValue(i)))
  {
    UnquotedInches(i);
    HeightOfInchDigits(f, i + "\"", i);
  }

  /** `parse_height` of `F' I"` for digit strings `F` and `I` (leading zeros allowed) is `F * 12 + I`. */
  lemma {:induction false} HeightOfDigits(f: string, i: string)
    requires |f| > 0 && AllDigits(f) && |i| > 0 && AllDigits(i)
    ensures ParseHeight(Str(f + "' " + i + "\"")) == Ok(Some(DigitsValue(f) * 12 + DigitsValue(i)))
  {
    InchDigitsValue(f, i);
    ParseHeightOfText(f, i);
  }

  /** `parse_height` of `F' I"` is what the groups `F` and `I"` give. */
  lemma {:induction false} ParseHeightOfText(f: string, i: string)
    requires |f| > 0 && AllDigits(f) && |i| > 0 && AllDigits(i)
    ensures InchChars(i + "\"")
    ensures ParseHeight(Str(f + "' " + i + "\"")) == HeightOfGroups(Some((f, i + "\"")))
  {
    HeightTextMatches(f, i);
    ParseHeightOfMatch(f + "' " + i + "\"", f, i + "\"");
  }

  /** `parse_height` of a text the pattern matches is what the two groups give. */
  lemma {:induction false} ParseHeightOfMatch(h: string, f: string, g: string)
    requires |h| > 0 && AllDigits(f) && InchChars(g) && HeightMatch(h) == Some((f, g))
    ensures ParseHeight(Str(h)) == HeightOfGroups(Some((f, g)))
  {
  }

  /** Groups whose inch digits `d` are not empty give `F * 12 + d` inches. */
  lemma {:induction false} HeightOfInchDigits(f: string, g: string, d: string)
    requires AllDigits(f) && InchChars(g) && |d| > 0 && Unquoted(g) == d
    ensures HeightOfGroups(Some((f, g))) == Ok(Some(DigitsValue(f) * 12 + DigitsValue(d)))
  {
    var m := Some((f, g));
    assert m.value.0 == f && m.value.1 == g;
    assert InchesValue(g) == Some(DigitsValue(d));
  }

  /** `parse_height` reads back the feet and inches it is shown as. */
  lemma {:induction false} HeightRoundTrip(feet: nat, inches: nat)
    ensures var r := ParseHeight(Str(ShowNat(feet) + "' " + ShowNat(inches) + "\""));
      r.Ok? && r.value.Some? && r.value.value == feet * 12 + inches
  {
    DigitsShowNat(feet);
    DigitsShowNat(inches);
    HeightOfDigits(ShowNat(feet), ShowNat(inches));
  }

  /**
   * `parse_weight` and `parse_reach` (the same code): the first run of digits
   * as an int; a falsy value or text without digits gives None.
   */
  function ParseNumber(v: Value): (r: Result<Option<int>, PyError>)
    ensures v.Str? ==> r.Ok?
    ensures v.Str? ==> (r.value.None? <==> NoDigits(v.s))
  {
    if !Truthy(v) then
      assert v.Str? ==> v.s == [];
      Ok(None)
    else if !v.Str? then Err(TypeError)
    else
      match FirstDigitRun(v.s)
      case None => Ok(None)
      case Some(d) => Ok(Some(DigitsValue(d)))
  }

  /** A number after digit-free text, and before a non-digit, is the number read. */
  lemma {:induction false} NumberRoundTrip(p: string, n: nat, q: string)
    requires NoDigits(p) && (q == [] || !IsDigit(q[0]))
    ensures ParseNumber(Str(p + ShowNat(n) + q)) == Ok(Some(n))
  {
    var d := ShowNat(n);
    var s := p + d + q;
    assert s[..|p|] == p && s[|p|..] == d + q;
    assert IsDigit(s[|p|]);
    FirstDigitAtOf(s, |p|);
    DigitPrefixOf(d, q);
    DigitsShowNat(n);
  }

  /** A number written at the start of a text, before a non-digit, is the number read. */
  lemma {:induction false} NumberAtStart(n: nat, q: string)
    requires q == [] || !IsDigit(q[0])
    ensures ParseNumber(Str(ShowNat(n) + q)) == Ok(Some(n))
  {
    var d := ShowNat(n);
    var s := d + q;
    assert s[0] == d[0] && IsDigit(s[0]);
    assert s[0..] == s;
    DigitPrefixOf(d, q);
    DigitsShowNat(n);
  }

  lemma {:induction false} FirstDigitAtOf(s: string, i: nat)
    requires i < |s| && NoDigits(s[..i]) && IsDigit(s[i])
    ensures FirstDigitAt(s) == i
    decreases i
  {
    if i > 0 {
      assert s[..i][0] == s[0];
      assert s[1..][..i - 1] == s[..i][1..];
      assert s[1..][i - 1] == s[i];
      FirstDigitAtOf(s[1..], i - 1);
    }
  }

  /** A parsed measurement as the value stored back into the item. */
  function OptionValue(n: Option<int>): (v: Value)
    ensures v.Null? <==> n.None?
    ensures n.Some? ==> v == Int(n.value)
  {
    match n
    case None => Null
    case Some(i) => Int(i)
  }

  /**
   * `FighterProcessorPipeline.process_item` on a `FighterItem`: height, weight
   * and reach are parsed in that order, each stored before the next is read;
   * `stance` and `dob` are re-assigned from `item.get`, which stores None for a
   * field that was never set. A parser that raises stops the step there.
   */
  function ProcessFighter(f: Fields): (r: Step)
    ensures r.error.Some? ==> r.error == Some(TypeError) || r.error == Some(ValueError)
    ensures r.error.None? ==> r.fields.Keys == f.Keys + {"height", "weight", "reach", "stance", "dob"}
  {
    StoreMeasurements(f, ParseHeight(Get(f, "height")), ParseNumber(Get(f, "weight")), ParseNumber(Get(f, "reach")))
  }

  /**
   * Storing the three parser results in order; the weight and reach parsers
   * read fields the earlier stores do not touch, so their results may be
   * computed up front.
   */
  function StoreMeasurements(f: Fields, h: Result<Option<int>, PyError>, w: Result<Option<int>, PyError>,
                             r: Result<Option<int>, PyError>): Step
  {
    match h
    case Err(e) => Step(f, Some(e))
    case Ok(hv) =>
      var f1 := f["height" := OptionValue(hv)];
      match w
      case Err(e) => Step(f1, Some(e))
      case Ok(wv) =>
        var f2 := f1["weight" := OptionValue(wv)];
        match r
        case Err(e) => Step(f2, Some(e))
        case Ok(rv) =>
          var f3 := f2["reach" := OptionValue(rv)];
          var f4 := f3["stance" := Get(f3, "stance")];
          Step(f4["dob" := Get(f4, "dob")], None)
  }

  lemma {:induction false} StoreMeasurementsTouches(f: Fields, h: Result<Option<int>, PyError>, w: Result<Option<int>, PyError>,
                                 r: Result<Option<int>, PyError>, k: string)
    ensures StoreMeasurements(f, h, w, r).fields.Keys <= f.Keys + {"height", "weight", "reach", "stance", "dob"}
    ensures k != "height" && k != "weight" && k != "reach" ==> Get(StoreMeasurements(f, h, w, r).fields, k) == Get(f, k)
  {
  }

  /** `FighterProcessorPipeline.process_item`: items of other classes pass through untouched. */
  method ProcessFighterItem(item: Item) returns (err: Option<PyError>)
    requires item.Valid() && item.declared == ScrapyFields(item.kind)
    modifies item
    ensures item.Valid()
    ensures item.kind == FighterItem ==> Step(item.fields, err) == ProcessFighter(old(item.fields))
    ensures item.kind != FighterItem ==> item.fields == old(item.fields) && err.None?
  {
    if item.kind != FighterItem {
      return None;
    }
    var h := ParseHeight(Get(item.fields, "height"));
    if h.Err? {
      return Some(h.error);
    }
    item.Set("height", OptionValue(h.value));
    var w := ParseNumber(Get(item.fields, "weight"));
    if w.Err? {
      return Some(w.error);
    }
    item.Set("weight", OptionValue(w.value));
    var r := ParseNumber(Get(item.fields, "reach"));
    if r.Err? {
      return Some(r.error);
    }
    item.Set("reach", OptionValue(r.value));
    item.Set("stance", Get(item.fields, "stance"));
    item.Set("dob", Get(item.fields, "dob"));
    err := None;
  }

  /**
   * The fighter pipeline changes the value of no field but height, weight and
   * reach; it may add `stance` and `dob` (as None) and nothing else.
   */
  lemma {:induction false} ProcessFighterTouchesOnlyMeasurements(f: Fields, k: string)
    ensures ProcessFighter(f).fields.Keys <= f.Keys + {"height", "weight", "reach", "stance", "dob"}
    ensures k != "height" && k != "weight" && k != "reach" ==> Get(ProcessFighter(f).fields, k) == Get(f, k)
  {
    StoreMeasurementsTouches(f, ParseHeight(Get(f, "height")), ParseNumber(Get(f, "weight")),
      ParseNumber(Get(f, "reach")), k);
  }

  /**
   * The pipeline raises exactly when one of the three parsers raises; otherwise
   * it stores each parser's result in its field.
   */
  lemma {:induction false} ProcessFighterStoresParses(f: Fields)
    ensures var h, w, r := ParseHeight(Get(f, "height")), ParseNumber(Get(f, "weight")), ParseNumber(Get(f, "reach"));
      (ProcessFighter(f).error.None? <==> h.Ok? && w.Ok? && r.Ok?)
      && (h.Ok? && w.Ok? && r.Ok? ==>
            Get(ProcessFighter(f).fields, "height") == OptionValue(h.value)
            && Get(ProcessFighter(f).fields, "weight") == OptionValue(w.value)
            && Get(ProcessFighter(f).fields, "reach") == OptionValue(r.value))
  {
    StoreMeasurementsResults(f, ParseHeight(Get(f, "height")), ParseNumber(Get(f, "weight")),
      ParseNumber(Get(f, "reach")));
  }

  lemma {:induction false} StoreMeasurementsResults(f: Fields, h: Result<Option<int>, PyError>, w: Result<Option<int>, PyError>,
                                 r: Result<Option<int>, PyError>)
    ensures StoreMeasurements(f, h, w, r).error.None? <==> h.Ok? && w.Ok? && r.Ok?
    ensures h.Ok? && w.Ok? && r.Ok? ==>
      Get(StoreMeasurements(f, h, w, r).fields, "height") == OptionValue(h.value)
      && Get(StoreMeasurements(f, h, w, r).fields, "weight") == OptionValue(w.value)
      && Get(StoreMeasurements(f, h, w, r).fields, "reach") == OptionValue(r.value)
  {
  }

  /** The site's height format `5' 11"` is read as inches. */
  lemma {:induction false} HeightField(v: Value, feet: nat, inches: nat)
    requires v == Str(ShowNat(feet) + "' " + ShowNat(inches) + "\"")
    ensures ParseHeight(v).Ok? && ParseHeight(v).value.Some? && ParseHeight(v).value.value == feet * 12 + inches
  {
    HeightRoundTrip(feet, inches);
  }

  /** The site's weight and reach formats (`155 lbs.`, `72"`) are read as the leading number. */
  lemma {:induction false} NumberField(v: Value, n: nat, q: string)
    requires q == [] || !IsDigit(q[0])
    requires v == Str(ShowNat(n) + q)
    ensures ParseNumber(v) == Ok(Some(n))
  {
    NumberAtStart(n, q);
  }

  /** Absent or empty measurements are stored as None without error. */
  lemma {:induction false} ProcessFighterEmpty(f: Fields)
    requires !Truthy(Get(f, "height")) && !Truthy(Get(f, "weight")) && !Truthy(Get(f, "reach"))
    ensures ProcessFighter(f).error.None?
    ensures Get(ProcessFighter(f).fields, "height") == Null
    ensures Get(ProcessFighter(f).fields, "weight") == Null
    ensures Get(ProcessFighter(f).fields, "reach") == Null
  {
  }

  // ---------------------------------------------------------------------
  // FighterFightProcessorPipeline.split: "X of Y" strike counts
  // ---------------------------------------------------------------------

  /**
   * `split`: the text, stripped and lower-cased, must contain "of"; the two
   * pieces around the first "of" are read with `int()`. None, text without
   * "of", or a piece `int()` rejects give `(None, None)`. A value that is not a
   * string renders (`str(v)`) as digits, `True`/`False`, a float or an ISO date,
   * none of which contains "of".
   */
  function SplitCounts(v: Value): (r: (Value, Value))
    ensures r.0.Null? <==> r.1.Null?
    ensures !r.0.Null? ==> r.0.Int? && r.1.Int?
  {
    if !v.Str? then (Null, Null)
    else
      var t := Lower(Strip(v.s));
      if !Contains(t, "of") then (Null, Null)
      else
        var parts := SplitOn(t, "of");
        if |parts| < 2 then (Null, Null)
        else
          match (ParseInt(Strip(parts[0])), ParseInt(Strip(parts[1])))
          case (Some(a), Some(b)) => (Int(a), Int(b))
          case _ => (Null, Null)
  }

  /** "of" written in any letter case. */
  predicate IsOfWord(o: string) {
    |o| == 2 && LowerChar(o[0]) == 'o' && LowerChar(o[1]) == 'f'
  }

  predicate Blank(c: char) {
    IsDigit(c) || IsSpace(c)
  }

  lemma {:induction false} LowerPlain(s: string)
    requires forall i :: 0 <= i < |s| ==> Blank(s[i])
    ensures Lower(s) == s && 'o' !in s
  {
    assert forall i :: 0 <= i < |s| ==> s[i] != 'o' && !('A' <= s[i] <= 'Z');
    LowerNoUpper(s);
  }

  /** Digits and whitespace are plain characters. */
  lemma {:induction false} PlainPieces(d: string, w: string)
    requires AllDigits(d) && AllSpaces(w)
    ensures forall i :: 0 <= i < |d + w| ==> Blank((d + w)[i])
    ensures forall i :: 0 <= i < |w + d| ==> Blank((w + d)[i])
  {
  }

  /** The stripped, lower-cased text of `w1 X w2 of w3 Y w4` for digit strings `X` and `Y`. */
  lemma {:induction false} CountsText(d1: string, d2: string, w1: string, w2: string, o: string, w3: string, w4: string)
    requires |d1| > 0 && AllDigits(d1) && |d2| > 0 && AllDigits(d2) && IsOfWord(o)
    requires AllSpaces(w1) && AllSpaces(w2) && AllSpaces(w3) && AllSpaces(w4)
    ensures Lower(Strip(w1 + d1 + w2 + o + w3 + d2 + w4)) == (d1 + w2) + "of" + (w3 + d2)
  {
    CountsStrip(d1, d2, w1, w2, o, w3, w4);
    CountsLower(d1, d2, w2, o, w3);
  }

  lemma {:induction false} CountsStrip(d1: string, d2: string, w1: string, w2: string, o: string, w3: string, w4: string)
    requires |d1| > 0 && AllDigits(d1) && |d2| > 0 && AllDigits(d2)
    requires AllSpaces(w1) && AllSpaces(w4)
    ensures Strip(w1 + d1 + w2 + o + w3 + d2 + w4) == (d1 + w2) + o + (w3 + d2)
  {
    var m := (d1 + w2) + o + (w3 + d2);
    assert w1 + d1 + w2 + o + w3 + d2 + w4 == w1 + m + w4;
    assert m[0] == d1[0] && m[|m| - 1] == d2[|d2| - 1];
    assert IsDigit(m[0]) && IsDigit(m[|m| - 1]);
    StripPadded(w1, m, w4);
  }

  lemma {:induction false} CountsLower(d1: string, d2: string, w2: string, o: string, w3: string)
    requires AllDigits(d1) && AllDigits(d2) && IsOfWord(o)
    requires AllSpaces(w2) && AllSpaces(w3)
    ensures Lower((d1 + w2) + o + (w3 + d2)) == (d1 + w2) + "of" + (w3 + d2)
  {
    var p := d1 + w2;
    var q := w3 + d2;
    LowerAppend(p, o);
    LowerAppend(p + o, q);
    PlainPieces(d1, w2);
    PlainPieces(d2, w3);
    LowerPlain(p);
    LowerPlain(q);
    assert Lower(o) == "of";
  }

  /** The counts `split` reads from a text whose cleaned form splits at "of" into two pieces. */
  lemma {:induction false} SplitCountsOfPieces(s: string, p: string, q: string, a: int, b: int)
    requires Contains(Lower(Strip(s)), "of") && SplitOn(Lower(Strip(s)), "of") == [p, q]
    requires ParseInt(Strip(p)) == Some(a) && ParseInt(Strip(q)) == Some(b)
    ensures SplitCounts(Str(s)) == (Int(a), Int(b))
  {
  }

  /** `X w2 of w3 Y` splits at "of" into `X w2` and `w3 Y`. */
  lemma {:induction false} CountsTextSplits(d1: string, d2: string, w2: string, w3: string)
    requires AllDigits(d1) && AllDigits(d2) && AllSpaces(w2) && AllSpaces(w3)
    ensures Contains((d1 + w2) + "of" + (w3 + d2), "of")
    ensures SplitOn((d1 + w2) + "of" + (w3 + d2), "of") == [d1 + w2, w3 + d2]
  {
    var p := d1 + w2;
    var q := w3 + d2;
    PlainPieces(d1, w2);
    PlainPieces(d2, w3);
    LowerPlain(p);
    LowerPlain(q);
    SplitAround(p, "of", q);
    SplitOnOne(p + "of" + q, "of");
  }

  /** Each piece around "of" strips to its digits. */
  lemma {:induction false} CountsPiecesStrip(d1: string, d2: string, w2: string, w3: string)
    requires |d1| > 0 && AllDigits(d1) && |d2| > 0 && AllDigits(d2)
    requires AllSpaces(w2) && AllSpaces(w3)
    ensures Strip(d1 + w2) == d1 && Strip(w3 + d2) == d2
  {
    assert IsDigit(d1[0]) && IsDigit(d1[|d1| - 1]);
    assert IsDigit(d2[0]) && IsDigit(d2[|d2| - 1]);
    StripPadded([], d1, w2);
    assert [] + d1 + w2 == d1 + w2;
    StripPadded(w3, d2, []);
    assert w3 + d2 + [] == w3 + d2;
  }

  /** `w1 X w2 of w3 Y w4` with digit strings `X` and `Y` splits into the numbers they denote. */
  lemma {:induction false} CountsOfPieces(d1: string, d2: string, w1: string, w2: string, o: string, w3: string, w4: string,
                       a: int, b: int)
    requires |d1| > 0 && AllDigits(d1) && |d2| > 0 && AllDigits(d2) && IsOfWord(o)
    requires AllSpaces(w1) && AllSpaces(w2) && AllSpaces(w3) && AllSpaces(w4)
    requires ParseInt(d1) == Some(a) && ParseInt(d2) == Some(b)
    ensures SplitCounts(Str(w1 + d1 + w2 + o + w3 + d2 + w4)) == (Int(a), Int(b))
  {
    var s := w1 + d1 + w2 + o + w3 + d2 + w4;
    CountsText(d1, d2, w1, w2, o, w3, w4);
    CountsTextSplits(d1, d2, w2, w3);
    CountsPiecesStrip(d1, d2, w2, w3);
    SplitCountsOfPieces(s, d1 + w2, w3 + d2, a, b);
  }

  /**
   * `X of Y`, in any letter case and with any whitespace around the numbers,
   * splits into the two numbers.
   */
  lemma {:induction false} SplitRoundTrip(a: nat, b: nat, w1: string, w2: string, o: string, w3: string, w4: string)
    requires IsOfWord(o) && AllSpaces(w1) && AllSpaces(w2) && AllSpaces(w3) && AllSpaces(w4)
    ensures SplitCounts(Str(w1 + ShowNat(a) + w2 + o + w3 + ShowNat(b) + w4)) == (Int(a), Int(b))
  {
    ParseShowNat(a);
    ParseShowNat(b);
    CountsOfPieces(ShowNat(a), ShowNat(b), w1, w2, o, w3, w4, a, b);
  }

  /** Text without "of" (after lower-casing), and every value that is not text, gives no counts. */
  lemma {:induction false} SplitWithoutOf(v: Value)
    requires v.Str? ==> !Contains(Lower(Strip(v.s)), "of")
    ensures SplitCounts(v) == (Null, Null)
  {
  }
}
