/**
 * `CleanItemPipeline` of the older crawler (`crawler/crawler/pipelines.py`):
 * every item that reaches it has twelve fields re-assigned, in order, to the
 * cleaned form of their raw text. The height, weight and reach parsers are
 * the same code as the newer `FighterProcessorPipeline`'s and are the
 * `ScrapyPipelines` definitions; `float()` and `strptime` are parameters.
 */
module CleanItem {
  import opened Wrappers
  import opened PyText
  import opened Items
  import Chrono
  import ScrapyPipelines

  /**
   * Python's `float()` on text, and `datetime.strptime(s, "%b %d, %Y").date()`;
   * None where they raise.
   */
  datatype Parsers = Parsers(float: string -> Option<real>, dob: string -> Option<Chrono.Date>)

  /** `float(v)` on each kind of value; None where it raises. */
  function FloatOf(v: Value, p: Parsers): Option<real> {
    match v
    case Null => None
    case Str(s) => p.float(s)
    case Int(i) => Some(i as real)
    case Real(x) => Some(x)
    case Bool(b) => Some(if b then 1.0 else 0.0)
    case Day(_) => None
  }

  /** `parse_float`: a falsy value, or one `float()` rejects (the bare `except`), gives None. */
  function ParseFloat(v: Value, p: Parsers): (r: Value)
    ensures r == Null || r.Real?
    ensures r.Real? ==> Truthy(v)
    ensures IsNumber(v) && Truthy(v) ==> r == Real(RealOf(v))
    ensures v.Str? && v.s != [] ==> (r.Real? <==> p.float(v.s).Some?)
  {
    if !Truthy(v) then Null
    else match FloatOf(v, p)
      case Some(x) => Real(x)
      case None => Null
  }

  /**
   * `parse_percent`: a falsy value gives None; text with a '%' is read
   * without its '%' signs and divided by 100, other text is read as it is.
   * Nothing is caught: text `float()` rejects raises `ValueError`, and a
   * truthy value that is not text makes the `in` test raise `TypeError`.
   */
  function ParsePercent(v: Value, p: Parsers): (r: Result<Value, PyError>)
    ensures r.Ok? ==> r.value == Null || r.value.Real?
    ensures r.Ok? && r.value == Null <==> !Truthy(v)
    ensures r == Err(TypeError) <==> Truthy(v) && !v.Str?
  {
    if !Truthy(v) then Ok(Null)
    else if !v.Str? then Err(TypeError)
    else if '%' in v.s then
      match p.float(ReplaceChar(v.s, '%', ""))
      case Some(x) => Ok(Real(x / 100.0))
      case None => Err(ValueError)
    else
      match p.float(v.s)
      case Some(x) => Ok(Real(x))
      case None => Err(ValueError)
  }

  /** A percentage with its sign is the plain number divided by 100. */
  lemma {:induction false} PercentSign(s: string, p: Parsers)
    requires s != [] && '%' !in s && p.float(s).Some?
    ensures ParsePercent(Str(s), p) == Ok(Real(p.float(s).value))
    ensures ParsePercent(Str(s + "%"), p) == Ok(Real(p.float(s).value / 100.0))
  {
    var t := s + "%";
    ReplaceCharAppend(s, "%", '%', "");
    assert ReplaceChar("%", '%', "") == [] + ReplaceChar("%"[1..], '%', "");
    assert ReplaceChar(t, '%', "") == s;
    assert t[|s|] == '%';
    assert '%' in t;
  }

  /** `parse_dob`: a falsy value, or one `strptime` rejects (the bare `except`), gives None. */
  function ParseDob(v: Value, p: Parsers): (r: Value)
    ensures r == Null || r.Day?
    ensures r.Day? <==> v.Str? && v.s != [] && p.dob(v.s).Some?
    ensures r.Day? ==> r.date == p.dob(v.s).value
  {
    if !Truthy(v) || !v.Str? then Null
    else match p.dob(v.s)
      case Some(d) => Day(d)
      case None => Null
  }

  /** The five cleaning functions of the pipeline. */
  datatype Cleaner = Height | Number | Dob | Float | Percent

  /** One cleaning function applied to a raw value, as the value stored back. */
  function CleanValue(c: Cleaner, v: Value, p: Parsers): (r: Result<Value, PyError>)
    ensures r.Err? ==> c == Height || c == Number || c == Percent
  {
    match c
    case Height =>
      (match ScrapyPipelines.ParseHeight(v)
       case Ok(n) => Ok(ScrapyPipelines.OptionValue(n))
       case Err(e) => Err(e))
    case Number =>
      (match ScrapyPipelines.ParseNumber(v)
       case Ok(n) => Ok(ScrapyPipelines.OptionValue(n))
       case Err(e) => Err(e))
    case Dob => Ok(ParseDob(v, p))
    case Float => Ok(ParseFloat(v, p))
    case Percent => ParsePercent(v, p)
  }

  /** One line `item[k] = clean(item.get(k))` of `process_item`. */
  datatype Line = Line(key: string, cleaner: Cleaner)

  /**
   * One line, unless an earlier one raised: the cleaning runs first and may
   * raise; then a field the class does not declare raises `KeyError`.
   */
  function Clean(declared: set<string>, s: Step, l: Line, p: Parsers): (r: Step)
    ensures s.error.Some? ==> r == s
    ensures r.fields.Keys <= s.fields.Keys + ({l.key} * declared)
  {
    if s.error.Some? then s
    else match CleanValue(l.cleaner, Get(s.fields, l.key), p)
      case Err(e) => Step(s.fields, Some(e))
      case Ok(v) => if l.key in declared then Step(s.fields[l.key := v], None) else Step(s.fields, Some(KeyError(l.key)))
  }

  /**
   * The twelve lines of `process_item`, in order: the measurements and the
   * date of birth, the per-minute averages, then the percentages.
   */
  const Lines: seq<Line> := [
    Line("height", Height), Line("weight", Number), Line("reach", Number), Line("dob", Dob),
    Line("slpm", Float), Line("sapm", Float), Line("sub_avg", Float), Line("td_avg", Float),
    Line("str_acc", Percent), Line("str_def", Percent), Line("td_acc", Percent), Line("td_def", Percent)]

  /** The lines `ls` run in order from `s`. */
  function CleanAll(declared: set<string>, s: Step, ls: seq<Line>, p: Parsers): Step
    decreases |ls|
  {
    if ls == [] then s else Clean(declared, CleanAll(declared, s, ls[..|ls| - 1], p), ls[|ls| - 1], p)
  }

  /** The lines add no field the class does not declare. */
  lemma {:induction false} CleanAllKeys(declared: set<string>, s: Step, ls: seq<Line>, p: Parsers)
    ensures CleanAll(declared, s, ls, p).fields.Keys <= s.fields.Keys + declared
    decreases |ls|
  {
    if ls != [] {
      CleanAllKeys(declared, s, ls[..|ls| - 1], p);
    }
  }

  /** `CleanItemPipeline.process_item` on an item of a class declaring `declared`. */
  function ProcessItem(declared: set<string>, f: Fields, p: Parsers): (r: Step)
    ensures r.fields.Keys <= f.Keys + declared
  {
    CleanAllKeys(declared, Step(f, None), Lines, p);
    CleanAll(declared, Step(f, None), Lines, p)
  }

  /** Once a line has raised, the remaining lines do nothing. */
  lemma {:induction false} ErrorSticks(declared: set<string>, s: Step, ls: seq<Line>, p: Parsers, i: nat)
    requires i <= |ls| && CleanAll(declared, s, ls[..i], p).error.Some?
    ensures CleanAll(declared, s, ls, p) == CleanAll(declared, s, ls[..i], p)
    decreases |ls|
  {
    if i == |ls| {
      assert ls[..i] == ls;
    } else {
      var init := ls[..|ls| - 1];
      assert init[..i] == ls[..i];
      ErrorSticks(declared, s, init, p, i);
    }
  }

  /** Lines that do not name a field leave it as it was. */
  lemma {:induction false} AllKeeps(declared: set<string>, s: Step, ls: seq<Line>, p: Parsers, j: string)
    requires forall i :: 0 <= i < |ls| ==> ls[i].key != j
    ensures Get(CleanAll(declared, s, ls, p).fields, j) == Get(s.fields, j)
    decreases |ls|
  {
    if ls != [] {
      var init := ls[..|ls| - 1];
      assert forall i :: 0 <= i < |init| ==> init[i] == ls[i];
      AllKeeps(declared, s, init, p, j);
    }
  }

  /**
   * Lines on distinct declared fields whose cleanings do not raise: no
   * error, and each field holds the cleaning of the value it had.
   */
  lemma {:induction false} AllClean(declared: set<string>, s: Step, ls: seq<Line>, p: Parsers)
    requires s.error.None?
    requires forall i :: 0 <= i < |ls| ==> ls[i].key in declared
    requires forall i :: 0 <= i < |ls| ==> CleanValue(ls[i].cleaner, Get(s.fields, ls[i].key), p).Ok?
    requires forall i, j :: 0 <= i < j < |ls| ==> ls[i].key != ls[j].key
    ensures CleanAll(declared, s, ls, p).error.None?
    ensures forall i :: 0 <= i < |ls| ==>
      Get(CleanAll(declared, s, ls, p).fields, ls[i].key) == CleanValue(ls[i].cleaner, Get(s.fields, ls[i].key), p).value
    decreases |ls|
  {
    if ls != [] {
      var n := |ls| - 1;
      var init := ls[..n];
      assert forall i :: 0 <= i < n ==> init[i] == ls[i];
      AllClean(declared, s, init, p);
      AllKeeps(declared, s, init, p, ls[n].key);
      var r := CleanAll(declared, s, init, p);
      assert CleanAll(declared, s, ls, p) == Clean(declared, r, ls[n], p);
      CleanOne(declared, r, ls[n], p, CleanValue(ls[n].cleaner, Get(s.fields, ls[n].key), p).value);
      forall i | 0 <= i < |ls|
        ensures Get(CleanAll(declared, s, ls, p).fields, ls[i].key)
          == CleanValue(ls[i].cleaner, Get(s.fields, ls[i].key), p).value
      {
        if i < n {
          assert ls[i].key != ls[n].key;
          assert Get(r.fields, init[i].key) == CleanValue(init[i].cleaner, Get(s.fields, init[i].key), p).value;
        }
      }
    }
  }

  /** A line on a declared field whose cleaning does not raise stores the cleaned value. */
  lemma {:induction false} CleanOne(declared: set<string>, r: Step, l: Line, p: Parsers, v: Value)
    requires r.error.None? && l.key in declared
    requires CleanValue(l.cleaner, Get(r.fields, l.key), p) == Ok(v)
    ensures Clean(declared, r, l, p) == Step(r.fields[l.key := v], None)
  {
  }

  /** Running one more line of a table. */
  lemma {:induction false} CleanPrefix(declared: set<string>, s: Step, ls: seq<Line>, p: Parsers, i: nat)
    requires i < |ls|
    ensures CleanAll(declared, s, ls[..i + 1], p) == Clean(declared, CleanAll(declared, s, ls[..i], p), ls[i], p)
  {
    assert ls[..i + 1][..i] == ls[..i];
  }

  /** The twelve lines name twelve different fields, all declared by the older crawler's `FighterItem`. */
  lemma {:induction false} LinesFitFighterItem()
    ensures forall i :: 0 <= i < |Lines| ==> Lines[i].key in CrawlerFields(FighterItem)
    ensures forall i, j :: 0 <= i < j < |Lines| ==> Lines[i].key != Lines[j].key
  {
  }

  /** One line of `process_item`. */
  method CleanField(item: Item, l: Line, p: Parsers) returns (err: Option<PyError>)
    requires item.Valid()
    modifies item
    ensures item.Valid()
    ensures Step(item.fields, err) == Clean(item.declared, Step(old(item.fields), None), l, p)
  {
    var v := CleanValue(l.cleaner, Get(item.fields, l.key), p);
    if v.Err? {
      return Some(v.error);
    }
    err := item.TrySet(l.key, v.value);
  }

  method ProcessItemStep(item: Item, p: Parsers) returns (err: Option<PyError>)
    requires item.Valid()
    modifies item
    ensures item.Valid()
    ensures Step(item.fields, err) == ProcessItem(item.declared, old(item.fields), p)
  {
    var start := Step(item.fields, None);
    err := None;
    var i := 0;
    while i < |Lines|
      invariant 0 <= i <= |Lines| && item.Valid() && err.None?
      invariant Step(item.fields, err) == CleanAll(item.declared, start, Lines[..i], p)
    {
      err := CleanField(item, Lines[i], p);
      CleanPrefix(item.declared, start, Lines, p, i);
      i := i + 1;
      if err.Some? {
        ErrorSticks(item.declared, start, Lines, p, i);
        return;
      }
    }
    assert Lines[..i] == Lines;
  }

  /**
   * Only the twelve cleaned fields can change, whatever the outcome; in
   * particular `fighter_id`, `name` and `stance` are left as they were.
   */
  lemma {:induction false} ProcessItemKeeps(declared: set<string>, f: Fields, p: Parsers, k: string)
    requires forall i :: 0 <= i < |Lines| ==> Lines[i].key != k
    ensures Get(ProcessItem(declared, f, p).fields, k) == Get(f, k)
  {
    AllKeeps(declared, Step(f, None), Lines, p, k);
  }

  /** The identity fields and the stance pass through the pipeline unchanged. */
  lemma {:induction false} IdentityUnchanged(declared: set<string>, f: Fields, p: Parsers)
    ensures var g := ProcessItem(declared, f, p).fields;
      Get(g, "fighter_id") == Get(f, "fighter_id") && Get(g, "name") == Get(f, "name")
      && Get(g, "stance") == Get(f, "stance")
  {
    ProcessItemKeeps(declared, f, p, "fighter_id");
    ProcessItemKeeps(declared, f, p, "name");
    ProcessItemKeeps(declared, f, p, "stance");
  }

  /**
   * On the older crawler's `FighterItem`, when no cleaning raises, the
   * pipeline finishes and every cleaned field holds the cleaning of its raw
   * value.
   */
  lemma {:induction false} ProcessFighterItem(f: Fields, p: Parsers)
    requires forall i :: 0 <= i < |Lines| ==> CleanValue(Lines[i].cleaner, Get(f, Lines[i].key), p).Ok?
    ensures ProcessItem(CrawlerFields(FighterItem), f, p).error.None?
    ensures forall i :: 0 <= i < |Lines| ==>
      Get(ProcessItem(CrawlerFields(FighterItem), f, p).fields, Lines[i].key)
        == CleanValue(Lines[i].cleaner, Get(f, Lines[i].key), p).value
  {
    LinesFitFighterItem();
    AllClean(CrawlerFields(FighterItem), Step(f, None), Lines, p);
  }

  /**
   * Every other item class of the older crawler lacks `height`: its first
   * line already raises `KeyError` and the item is left as it was.
   */
  lemma {:induction false} OtherItemsRaise(kind: Kind, f: Fields, p: Parsers)
    requires kind != FighterItem && f.Keys <= CrawlerFields(kind)
    ensures ProcessItem(CrawlerFields(kind), f, p) == Step(f, Some(KeyError("height")))
  {
    HeightOnlyOnFighters(kind);
    WithoutHeightRaises(CrawlerFields(kind), f, p);
  }

  lemma {:induction false} HeightOnlyOnFighters(kind: Kind)
    requires kind != FighterItem
    ensures "height" !in CrawlerFields(kind)
  {
    match kind
    case EventItem =>
    case FightItem =>
    case FighterFightItem =>
    case OtherItem =>
  }

  /** A class without `height` fails at the first line, before anything is stored. */
  lemma {:induction false} WithoutHeightRaises(d: set<string>, f: Fields, p: Parsers)
    requires "height" !in d && "height" !in f
    ensures ProcessItem(d, f, p) == Step(f, Some(KeyError("height")))
  {
    var s0 := Step(f, None);
    assert Get(f, "height") == Null;
    CleanPrefix(d, s0, Lines, p, 0);
    assert Lines[..0] == [];
    ErrorSticks(d, s0, Lines, p, 1);
  }
}
