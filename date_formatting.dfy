/**
 * `DateFormattingPipeline` of the newer crawler
 * (`src/scrapy/crawler/pipelines.py`): one date field of an event, fight or
 * fighter item is rewritten as ISO text. The two `strptime` formats and the
 * `strftime` are the parameter `parse`; the model keeps the rules around it:
 * a missing or placeholder date becomes None, and which field is rewritten.
 */
module DateFormatting {
  import opened Wrappers
  import opened PyText
  import opened Items
  import ValidationPipeline

  /**
   * `format_date`: a falsy value, text containing "--", or text neither
   * format reads gives None; read text becomes its ISO form. A truthy value
   * that is not text makes the `in` test raise `TypeError`.
   */
  function FormatDate(v: Value, parse: string -> Option<string>): (r: Result<Value, PyError>)
    ensures r.Err? <==> Truthy(v) && !v.Str?
    ensures r.Err? ==> r.error == TypeError
    ensures v.Str? && (v.s == [] || Contains(v.s, "--")) ==> r == Ok(Null)
    ensures r.Ok? && r.value != Null ==>
      v.Str? && !Contains(v.s, "--") && parse(v.s).Some? && r.value == Str(parse(v.s).value)
  {
    if !Truthy(v) then Ok(Null)
    else if !v.Str? then Err(TypeError)
    else if Contains(v.s, "--") then Ok(Null)
    else match parse(v.s)
      case Some(iso) => Ok(Str(iso))
      case None => Ok(Null)
  }

  /** The item classes whose date is formatted. */
  predicate Dated(kind: Kind) {
    kind == EventItem || kind == FightItem || kind == FighterItem
  }

  /** The date field rewritten: the first of `event_date`, `date`, `dob` that the item has set. */
  function DateField(f: Fields): (k: Option<string>)
    ensures k.Some? ==> k.value in f && k.value in {"event_date", "date", "dob"}
    ensures k.None? <==> "event_date" !in f && "date" !in f && "dob" !in f
  {
    if "event_date" in f then Some("event_date")
    else if "date" in f then Some("date")
    else if "dob" in f then Some("dob")
    else None
  }

  /** `DateFormattingPipeline.process_item`. */
  function FormatDates(kind: Kind, f: Fields, parse: string -> Option<string>): (s: Step)
    ensures !Dated(kind) || DateField(f).None? ==> s == Step(f, None)
    ensures s.fields.Keys == f.Keys
  {
    if !Dated(kind) then Step(f, None)
    else match DateField(f)
      case None => Step(f, None)
      case Some(k) =>
        match FormatDate(f[k], parse)
        case Err(e) => Step(f, Some(e))
        case Ok(v) => Step(f[k := v], None)
  }

  method FormatDatesStep(item: Item, parse: string -> Option<string>) returns (err: Option<PyError>)
    requires item.Valid()
    modifies item
    ensures item.Valid()
    ensures Step(item.fields, err) == FormatDates(item.kind, old(item.fields), parse)
  {
    err := None;
    if !Dated(item.kind) {
      return;
    }
    var k := DateField(item.fields);
    if k.None? {
      return;
    }
    var v := FormatDate(item.fields[k.value], parse);
    if v.Err? {
      return Some(v.error);
    }
    item.Set(k.value, v.value);
  }

  /**
   * Only the chosen date field can change: with `event_date` set, `date` and
   * `dob` keep their values even if they hold dates too, and likewise
   * `dob` when `date` is set.
   */
  lemma {:induction false} FormatDatesTouchesOne(kind: Kind, f: Fields, parse: string -> Option<string>, j: string)
    requires DateField(f) != Some(j)
    ensures Get(FormatDates(kind, f, parse).fields, j) == Get(f, j)
  {
  }

  /** The rewritten field holds the formatted date. */
  lemma {:induction false} FormatDatesStores(kind: Kind, f: Fields, parse: string -> Option<string>)
    requires Dated(kind) && DateField(f).Some?
    requires FormatDate(f[DateField(f).value], parse).Ok?
    ensures var k := DateField(f).value;
      var s := FormatDates(kind, f, parse);
      s.error.None? && s.fields[k] == FormatDate(f[k], parse).value
  {
  }

  /**
   * When every ISO text `parse` produces is a date the validation accepts,
   * the formatted field passes the validation's date check or is None,
   * which the validation skips.
   */
  lemma {:induction false} FormattedDateValidates(v: Value, parse: string -> Option<string>, isDate: string -> bool)
    requires forall s :: parse(s).Some? ==> isDate(parse(s).value)
    requires FormatDate(v, parse).Ok?
    ensures var w := FormatDate(v, parse).value;
      w == Null || ValidationPipeline.ValidDate(w, isDate)
  {
  }

  /**
   * Neither `strptime` format (`'%B %d, %Y'`, `'%b %d, %Y'`) reads the ISO
   * text `strftime('%Y-%m-%d')` writes, so running the pipeline over an
   * already formatted date turns it into None.
   */
  lemma {:induction false} FormatDateTwiceIsNone(v: Value, parse: string -> Option<string>)
    requires forall s :: parse(s).Some? ==> parse(parse(s).value).None?
    requires FormatDate(v, parse).Ok?
    ensures FormatDate(FormatDate(v, parse).value, parse) == Ok(Null)
  {
  }
}
