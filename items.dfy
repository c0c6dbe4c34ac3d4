/**
 * Scrapy items as the ingestion pipelines see them: a dictionary from field
 * names to Python values, restricted to the fields the item class declares.
 * Assigning an undeclared field raises `KeyError`; `item.get(k)` of an unset
 * field is None.
 */
module Items {
  import opened Wrappers
  import Chrono

  /** The Python values a scraped field can hold. */
  datatype Value =
    | Null
    | Str(s: string)
    | Int(i: int)
    | Real(x: real)
    | Bool(b: bool)
    | Day(date: Chrono.Date)

  /** Python truthiness (`if v:`). */
  predicate Truthy(v: Value) {
    match v
    case Null => false
    case Str(s) => |s| > 0
    case Int(i) => i != 0
    case Real(x) => x != 0.0
    case Bool(b) => b
    case Day(_) => true
  }

  /** `isinstance(v, (int, float))`; `bool` is a subclass of `int`. */
  predicate IsNumber(v: Value) {
    v.Int? || v.Real? || v.Bool?
  }

  /** `isinstance(v, int)`. */
  predicate IsInt(v: Value) {
    v.Int? || v.Bool?
  }

  /** The integer an `int` (or `bool`) value stands for. */
  function IntOf(v: Value): int
    requires IsInt(v)
  {
    if v.Int? then v.i else if v.b then 1 else 0
  }

  /** The number an `int`, `float` or `bool` value stands for. */
  function RealOf(v: Value): real
    requires IsNumber(v)
  {
    if v.Real? then v.x else IntOf(v) as real
  }

  /** The exceptions the pipelines can raise. */
  datatype PyError = KeyError(key: string) | AttributeError | TypeError | ValueError | IndexError

  /** The item classes of the crawlers. */
  datatype Kind = EventItem | FightItem | FighterFightItem | FighterItem | OtherItem

  type Fields = map<string, Value>

  /** `item.get(k)`. */
  function Get(f: Fields, k: string): Value {
    if k in f then f[k] else Null
  }

  /** `item.get(k, d)`. */
  function GetOr(f: Fields, k: string, d: Value): Value {
    if k in f then f[k] else d
  }

  /** `item[k]`: a field that was never set raises `KeyError`. */
  function Index(f: Fields, k: string): Result<Value, PyError> {
    if k in f then Ok(f[k]) else Err(KeyError(k))
  }

  /** One scraped item: its class, the fields the class declares, and the fields set so far. */
  class Item {
    const kind: Kind
    const declared: set<string>
    var fields: Fields

    ghost predicate Valid()
      reads this
    {
      fields.Keys <= declared
    }

    constructor (kind: Kind, declared: set<string>, fields: Fields)
      requires fields.Keys <= declared
      ensures this.kind == kind && this.declared == declared && this.fields == fields
      ensures Valid()
    {
      this.kind := kind;
      this.declared := declared;
      this.fields := fields;
    }

    /** `item[k] = v`: a field the class does not declare raises `KeyError` and nothing changes. */
    method TrySet(k: string, v: Value) returns (err: Option<PyError>)
      requires Valid()
      modifies this
      ensures Valid()
      ensures err == if k in declared then None else Some(KeyError(k))
      ensures fields == if k in declared then old(fields)[k := v] else old(fields)
    {
      if k in declared {
        fields := fields[k := v];
        err := None;
      } else {
        err := Some(KeyError(k));
      }
    }

    /** `item[k] = v` for a declared field. */
    method Set(k: string, v: Value)
      requires Valid() && k in declared
      modifies this
      ensures Valid()
      ensures fields == old(fields)[k := v]
    {
      fields := fields[k := v];
    }

    /** `item[k] = None` for each declared `k` of `keys`, in turn. */
    method ClearAll(keys: seq<string>)
      requires Valid() && forall i :: 0 <= i < |keys| ==> keys[i] in declared
      modifies this
      ensures Valid()
      ensures fields == NullOut(old(fields), KeySet(keys))
    {
      ghost var f := fields;
      for i := 0 to |keys|
        invariant Valid()
        invariant fields == NullOut(f, KeySet(keys[..i]))
      {
        assert keys[..i + 1] == keys[..i] + [keys[i]];
        NullOutOneMore(f, keys[..i], keys[i]);
        Set(keys[i], Null);
      }
      assert keys[..|keys|] == keys;
    }
  }

  /**
   * What a pipeline step leaves behind: the item's fields when it returns or
   * raises, and the exception it raised, if any.
   */
  datatype Step = Step(fields: Fields, error: Option<PyError>)

  /** Python's `a == b` on field values: numbers compare by value, everything else structurally. */
  predicate PyEq(a: Value, b: Value) {
    if IsNumber(a) && IsNumber(b) then RealOf(a) == RealOf(b) else a == b
  }

  /** `item[k] = None` for every `k` in `keys`. */
  function NullOut(f: Fields, keys: set<string>): (g: Fields)
    ensures g.Keys == f.Keys + keys
    ensures forall k :: k in keys ==> g[k] == Null
    ensures forall k :: k in f && k !in keys ==> g[k] == f[k]
  {
    map k | k in f.Keys + keys :: if k in keys then Null else f[k]
  }

  /** The keys a list names. */
  function KeySet(keys: seq<string>): (r: set<string>)
    ensures forall k :: k in r <==> k in keys
  {
    set k | k in keys
  }

  /** Clearing one more key after a list of keys clears the longer list. */
  lemma {:induction false} NullOutOneMore(f: Fields, keys: seq<string>, k: string)
    ensures NullOut(f, KeySet(keys))[k := Null] == NullOut(f, KeySet(keys + [k]))
  {
    assert KeySet(keys + [k]) == KeySet(keys) + {k};
  }

  /** Clearing two groups of fields one after the other clears their union. */
  lemma {:induction false} NullOutTwice(f: Fields, a: set<string>, b: set<string>)
    ensures NullOut(NullOut(f, a), b) == NullOut(f, a + b)
  {
  }

  /** Clearing sets the cleared keys to None, keeps every other key, and a second clearing changes nothing. */
  lemma {:induction false} NullOutFacts(f: Fields, keys: set<string>, k: string)
    ensures k in keys ==> NullOut(f, keys)[k] == Null
    ensures k !in keys ==> Get(NullOut(f, keys), k) == Get(f, k)
    ensures NullOut(NullOut(f, keys), keys) == NullOut(f, keys)
  {
    NullOutTwice(f, keys, keys);
    assert keys + keys == keys;
  }

  /** A key whose first character no listed key starts with is not listed. */
  lemma {:induction false} NotListedByFirst(k: string, keys: seq<string>)
    requires |k| > 0
    requires forall i :: 0 <= i < |keys| ==> |keys[i]| > 0 && keys[i][0] != k[0]
    ensures k !in keys
  {
  }

  /** The fields each item class of `src/scrapy/crawler/items.py` declares. */
  function ScrapyFields(k: Kind): set<string> {
    match k
    case EventItem => {"event_id", "name", "date", "event_status", "location"}
    case FightItem => {"fight_id", "event_id", "event_date", "weight_class", "gender", "is_title_fight",
      "event_status", "red_fighter_name", "red_fighter_id", "blue_fighter_name", "blue_fighter_id",
      "red_status", "blue_status", "result_type", "winner_id", "loser_id", "winner_color",
      "end_round", "end_round_time", "total_duration", "rounds_scheduled", "time_scheduled",
      "method_raw", "finish_type", "decision_type", "referee"}
    case FighterFightItem => {"fight_id", "fighter_id", "opponent_id", "event_status",
      "knockdowns", "tot_str_raw", "tot_str_landed", "tot_str_attempted",
      "td_raw", "td_landed", "td_attempted", "sub_attempts", "reversals", "ctrl_time",
      "sig_str_raw", "sig_str_landed", "sig_str_attempted",
      "head_str_raw", "head_str_landed", "head_str_attempted",
      "body_str_raw", "body_str_landed", "body_str_attempted",
      "leg_str_raw", "leg_str_landed", "leg_str_attempted",
      "distance_str_raw", "distance_str_landed", "distance_str_attempted",
      "clinch_str_raw", "clinch_str_landed", "clinch_str_attempted",
      "ground_str_raw", "ground_str_landed", "ground_str_attempted"}
    case FighterItem => {"fighter_id", "name", "height", "weight", "reach", "stance", "dob"}
    case OtherItem => {}
  }

  /** The fields each item class of `crawler/crawler/items.py` declares. */
  function CrawlerFields(k: Kind): set<string> {
    match k
    case EventItem => {"event_id", "event_name", "event_date", "weight_class"}
    case FightItem => {"fight_id", "red_fighter_name", "red_fighter_id", "blue_fighter_name",
      "blue_fighter_id", "winner_id", "loser_id", "result_type", "method", "round", "time",
      "time_seconds", "scheduled_rounds", "scheduled_time_seconds", "referee"}
    case FighterFightItem => {"fight_id", "fighter_id", "opponent_id", "knockdowns",
      "sig_str_landed", "sig_str_attempted", "sig_str_percentage", "tot_str_landed",
      "tot_str_attempted", "td_landed", "td_attempted", "td_percentage", "sub_attempts",
      "reversals", "ctrl_time", "ctrl_seconds",
      "sig_str_head_landed", "sig_str_head_attempted", "sig_str_body_landed",
      "sig_str_body_attempted", "sig_str_leg_landed", "sig_str_leg_attempted",
      "distance_landed", "distance_attempted", "clinch_landed", "clinch_attempted",
      "ground_landed", "ground_attempted"}
    case FighterItem => {"fighter_id", "name", "height", "weight", "reach", "stance", "dob",
      "slpm", "str_acc", "sapm", "str_def", "td_avg", "td_acc", "td_def", "sub_avg"}
    case OtherItem => {}
  }
}
