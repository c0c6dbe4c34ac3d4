/**
 * The per-fighter statistics pipelines of the current crawler
 * (`src/scrapy/crawler/pipelines.py`): `FighterFightProcessorPipeline`, which
 * splits each "X of Y" strike text into landed and attempted counts and then
 * converts the count fields to integers, and `FighterFightUpcomingPipeline`,
 * which clears every statistic of a bout that has not been fought.
 */
module FighterFightPipeline {
  import opened Wrappers
  import opened Items
  import ScrapyPipelines

  /** The fields of a `FighterFightItem` of the current crawler. */
  ghost predicate IsFighterFight(item: Item)
    reads item
  {
    item.Valid() && item.kind == FighterFightItem && item.declared == ScrapyFields(FighterFightItem)
  }

  // ---------------------------------------------------------------------
  // handle_raw_values
  // ---------------------------------------------------------------------

  /** One entry of `RAW_DATA_MAP`: the raw text field and the landed and attempted fields it fills. */
  type Entry = (string, string, string)

  /** `RAW_DATA_MAP` (src/scrapy/crawler/constants.py): raw text field, landed field, attempted field. */
  const RawDataMap: seq<Entry> := [
    ("sig_str_raw", "sig_str_landed", "sig_str_attempted"),
    ("tot_str_raw", "tot_str_landed", "tot_str_attempted"),
    ("td_raw", "td_landed", "td_attempted"),
    ("head_str_raw", "head_str_landed", "head_str_attempted"),
    ("body_str_raw", "body_str_landed", "body_str_attempted"),
    ("leg_str_raw", "leg_str_landed", "leg_str_attempted"),
    ("distance_str_raw", "distance_str_landed", "distance_str_attempted"),
    ("clinch_str_raw", "clinch_str_landed", "clinch_str_attempted"),
    ("ground_str_raw", "ground_str_landed", "ground_str_attempted")]

  /** The statistic each entry is named after. */
  const RawStems: seq<string> :=
    ["sig_str", "tot_str", "td", "head_str", "body_str", "leg_str", "distance_str", "clinch_str", "ground_str"]

  function EntryOf(stem: string): Entry {
    (stem + "_raw", stem + "_landed", stem + "_attempted")
  }

  /** Every entry names its fields `<stem>_raw`, `<stem>_landed` and `<stem>_attempted`. */
  lemma {:induction false} RawDataMapNamed(i: nat)
    requires i < |RawStems|
    ensures |RawDataMap| == |RawStems| && RawDataMap[i] == EntryOf(RawStems[i])
  {
    if i < 2 {
      RawDataMapNamedA(i);
    } else if i < 4 {
      RawDataMapNamedB(i);
    } else if i < 6 {
      RawDataMapNamedC(i);
    } else if i < 8 {
      RawDataMapNamedD(i);
    } else {
      RawDataMapNamedE(i);
    }
  }

  // `RawDataMapNamed` two entries at a time, each checked against its literal names.

  lemma {:induction false} RawDataMapNamedA(i: nat)
    requires i < 2
    ensures |RawDataMap| == |RawStems| && RawDataMap[i] == EntryOf(RawStems[i])
  {
    if i == 0 {
      assert "sig_str" + "_raw" == "sig_str_raw";
      assert "sig_str" + "_landed" == "sig_str_landed";
      assert "sig_str" + "_attempted" == "sig_str_attempted";
    } else {
      assert "tot_str" + "_raw" == "tot_str_raw";
      assert "tot_str" + "_landed" == "tot_str_landed";
      assert "tot_str" + "_attempted" == "tot_str_attempted";
    }
  }

  lemma {:induction false} RawDataMapNamedB(i: nat)
    requires 2 <= i < 4
    ensures |RawDataMap| == |RawStems| && RawDataMap[i] == EntryOf(RawStems[i])
  {
    if i == 2 {
      assert "td" + "_raw" == "td_raw";
      assert "td" + "_landed" == "td_landed";
      assert "td" + "_attempted" == "td_attempted";
    } else {
      assert "head_str" + "_raw" == "head_str_raw";
      assert "head_str" + "_landed" == "head_str_landed";
      assert "head_str" + "_attempted" == "head_str_attempted";
    }
  }

  lemma {:induction false} RawDataMapNamedC(i: nat)
    requires 4 <= i < 6
    ensures |RawDataMap| == |RawStems| && RawDataMap[i] == EntryOf(RawStems[i])
  {
    if i == 4 {
      assert "body_str" + "_raw" == "body_str_raw";
      assert "body_str" + "_landed" == "body_str_landed";
      assert "body_str" + "_attempted" == "body_str_attempted";
    } else {
      assert "leg_str" + "_raw" == "leg_str_raw";
      assert "leg_str" + "_landed" == "leg_str_landed";
      assert "leg_str" + "_attempted" == "leg_str_attempted";
    }
  }

  lemma {:induction false} RawDataMapNamedD(i: nat)
    requires 6 <= i < 8
    ensures |RawDataMap| == |RawStems| && RawDataMap[i] == EntryOf(RawStems[i])
  {
    if i == 6 {
      assert "distance_str" + "_raw" == "distance_str_raw";
      assert "distance_str" + "_landed" == "distance_str_landed";
      assert "distance_str" + "_attempted" == "distance_str_attempted";
    } else {
      assert "clinch_str" + "_raw" == "clinch_str_raw";
      assert "clinch_str" + "_landed" == "clinch_str_landed";
      assert "clinch_str" + "_attempted" == "clinch_str_attempted";
    }
  }

  lemma {:induction false} RawDataMapNamedE(i: nat)
    requires 8 <= i < |RawStems|
    ensures |RawDataMap| == |RawStems| && RawDataMap[i] == EntryOf(RawStems[i])
  {
    assert "ground_str" + "_raw" == "ground_str_raw";
    assert "ground_str" + "_landed" == "ground_str_landed";
    assert "ground_str" + "_attempted" == "ground_str_attempted";
  }

  /** The fields the entries write. */
  function Writes(es: seq<Entry>): (w: set<string>)
    ensures forall i :: 0 <= i < |es| ==> es[i].1 in w && es[i].2 in w
  {
    if es == [] then {} else Writes(es[..|es| - 1]) + {es[|es| - 1].1, es[|es| - 1].2}
  }

  /** No entry reads a field any entry writes, and no field is written twice. */
  predicate Separate(es: seq<Entry>) {
    forall i, j :: 0 <= i < |es| && 0 <= j < |es| ==>
      es[i].0 != es[j].1 && es[i].0 != es[j].2 && es[i].1 != es[j].2
      && (i != j ==> es[i].1 != es[j].1 && es[i].2 != es[j].2)
  }

  /** The fields after the loop of `handle_raw_values` has run over the entries `es`. */
  function WithCounts(f: Fields, es: seq<Entry>): Fields
    decreases |es|
  {
    if es == [] then f
    else
      var g := WithCounts(f, es[..|es| - 1]);
      var e := es[|es| - 1];
      var counts := ScrapyPipelines.SplitCounts(Get(g, e.0));
      g[e.1 := counts.0][e.2 := counts.1]
  }

  /** `handle_raw_values`: every raw strike text split into its landed and attempted counts. */
  function HandleRawValues(f: Fields): (r: Fields)
    ensures r.Keys == f.Keys + Writes(RawDataMap)
  {
    WithCountsKeys(f, RawDataMap);
    WithCounts(f, RawDataMap)
  }

  method HandleRawValuesStep(item: Item)
    requires IsFighterFight(item)
    modifies item
    ensures IsFighterFight(item)
    ensures item.fields == HandleRawValues(old(item.fields))
  {
    RawDataMapDeclared();
    ghost var f := item.fields;
    for i := 0 to |RawDataMap|
      invariant IsFighterFight(item)
      invariant item.fields == WithCounts(f, RawDataMap[..i])
    {
      var (rawKey, landedKey, attemptedKey) := RawDataMap[i];
      var rawVal := Get(item.fields, rawKey);
      var (landed, attempted) := ScrapyPipelines.SplitCounts(rawVal);
      item.Set(landedKey, landed);
      item.Set(attemptedKey, attempted);
      assert RawDataMap[..i + 1][..i] == RawDataMap[..i];
    }
    assert RawDataMap[..|RawDataMap|] == RawDataMap;
  }

  /** Every field `RAW_DATA_MAP` writes is declared by `FighterFightItem`. */
  lemma {:induction false} RawDataMapDeclared()
    ensures forall i :: 0 <= i < |RawDataMap| ==>
      RawDataMap[i].1 in ScrapyFields(FighterFightItem) && RawDataMap[i].2 in ScrapyFields(FighterFightItem)
  {
  }

  lemma {:induction false} RawDataMapSeparate()
    ensures Separate(RawDataMap)
  {
    assert forall i, j :: 0 <= i < j < |RawStems| ==> RawStems[i] != RawStems[j];
    forall i, j | 0 <= i < |RawDataMap| && 0 <= j < |RawDataMap|
      ensures RawDataMap[i].0 != RawDataMap[j].1 && RawDataMap[i].0 != RawDataMap[j].2
      ensures RawDataMap[i].1 != RawDataMap[j].2
      ensures i != j ==> RawDataMap[i].1 != RawDataMap[j].1 && RawDataMap[i].2 != RawDataMap[j].2
    {
      RawDataMapNamed(i);
      RawDataMapNamed(j);
      var a, b := RawStems[i], RawStems[j];
      SuffixesDiffer(a, b, "_raw", "_landed", 1);
      SuffixesDiffer(a, b, "_raw", "_attempted", 1);
      SuffixesDiffer(a, b, "_landed", "_attempted", 3);
      if i != j {
        SameSuffix(a, b, "_landed");
        SameSuffix(a, b, "_attempted");
      }
    }
  }

  /** Names with different letters at the same distance from the end differ. */
  lemma {:induction false} SuffixesDiffer(a: string, b: string, x: string, y: string, n: nat)
    requires 0 < n <= |x| && n <= |y| && x[|x| - n] != y[|y| - n]
    ensures a + x != b + y
  {
    assert (a + x)[|a + x| - n] == x[|x| - n];
    assert (b + y)[|b + y| - n] == y[|y| - n];
  }

  /** Names with the same suffix differ when their stems do. */
  lemma {:induction false} SameSuffix(a: string, b: string, x: string)
    requires a != b
    ensures a + x != b + x
  {
    assert (a + x)[..|a|] == a;
    assert (b + x)[..|b|] == b;
  }

  /** The loop writes only the entries' fields. */
  lemma {:induction false} WithCountsKeeps(f: Fields, es: seq<Entry>, k: string)
    requires k !in Writes(es)
    ensures Get(WithCounts(f, es), k) == Get(f, k)
    ensures k in WithCounts(f, es) <==> k in f
    decreases |es|
  {
    if es != [] {
      WithCountsKeeps(f, es[..|es| - 1], k);
    }
  }

  /** The fields present afterwards: the old ones and every written one. */
  lemma {:induction false} WithCountsKeys(f: Fields, es: seq<Entry>)
    ensures WithCounts(f, es).Keys == f.Keys + Writes(es)
    decreases |es|
  {
    if es != [] {
      WithCountsKeys(f, es[..|es| - 1]);
    }
  }

  /** With separate entries, each written pair is the split of its raw field as it was before the loop. */
  lemma {:induction false} WithCountsAt(f: Fields, es: seq<Entry>, j: nat)
    requires Separate(es) && j < |es|
    ensures Get(WithCounts(f, es), es[j].1) == ScrapyPipelines.SplitCounts(Get(f, es[j].0)).0
    ensures Get(WithCounts(f, es), es[j].2) == ScrapyPipelines.SplitCounts(Get(f, es[j].0)).1
    decreases |es|
  {
    var p := es[..|es| - 1];
    var e := es[|es| - 1];
    assert Separate(p);
    if j < |p| {
      WithCountsAt(f, p, j);
      assert p[j] == es[j];
      assert es[j].1 != e.1 && es[j].1 != e.2 && es[j].2 != e.1 && es[j].2 != e.2;
      WithCountsOther(f, es, es[j].1);
      WithCountsOther(f, es, es[j].2);
    } else {
      WithCountsLast(f, es);
      assert e.0 !in Writes(p) by {
        forall i | 0 <= i < |p|
          ensures e.0 != p[i].1 && e.0 != p[i].2
        {
          assert p[i] == es[i];
        }
        WritesOf(p, e.0);
      }
      WithCountsKeeps(f, p, e.0);
    }
  }

  /** The last step of the loop writes the last entry's pair. */
  lemma {:induction false} WithCountsLast(f: Fields, es: seq<Entry>)
    requires es != [] && es[|es| - 1].1 != es[|es| - 1].2
    ensures var e := es[|es| - 1];
      var c := ScrapyPipelines.SplitCounts(Get(WithCounts(f, es[..|es| - 1]), e.0));
      Get(WithCounts(f, es), e.1) == c.0 && Get(WithCounts(f, es), e.2) == c.1
  {
  }

  /** The last step of the loop keeps every field but the last entry's pair. */
  lemma {:induction false} WithCountsOther(f: Fields, es: seq<Entry>, k: string)
    requires es != [] && k != es[|es| - 1].1 && k != es[|es| - 1].2
    ensures Get(WithCounts(f, es), k) == Get(WithCounts(f, es[..|es| - 1]), k)
  {
  }

  /** A field is written exactly when some entry names it. */
  lemma {:induction false} WritesOf(es: seq<Entry>, k: string)
    ensures k in Writes(es) <==> exists i :: 0 <= i < |es| && (es[i].1 == k || es[i].2 == k)
    decreases |es|
  {
    if es != [] {
      var p := es[..|es| - 1];
      WritesOf(p, k);
      if k in Writes(p) {
        var i :| 0 <= i < |p| && (p[i].1 == k || p[i].2 == k);
        assert es[i] == p[i];
      }
      if exists i :: 0 <= i < |es| && (es[i].1 == k || es[i].2 == k) {
        var i :| 0 <= i < |es| && (es[i].1 == k || es[i].2 == k);
        if i < |p| {
          assert p[i] == es[i];
        }
      }
    }
  }

  /**
   * After `handle_raw_values` the landed and attempted fields of every entry
   * hold the split of that entry's raw text, and every other field is as it was.
   */
  lemma {:induction false} RawValuesSplit(f: Fields, j: nat, k: string)
    requires j < |RawDataMap|
    ensures Get(HandleRawValues(f), RawDataMap[j].1) == ScrapyPipelines.SplitCounts(Get(f, RawDataMap[j].0)).0
    ensures Get(HandleRawValues(f), RawDataMap[j].2) == ScrapyPipelines.SplitCounts(Get(f, RawDataMap[j].0)).1
    ensures k !in Writes(RawDataMap) ==> Get(HandleRawValues(f), k) == Get(f, k)
  {
    RawDataMapSeparate();
    WithCountsAt(f, RawDataMap, j);
    if k !in Writes(RawDataMap) {
      WithCountsKeeps(f, RawDataMap, k);
    }
  }

  /** Splitting twice is splitting once: the raw texts the loop reads are never written. */
  lemma {:induction false} RawValuesIdempotent(f: Fields)
    ensures HandleRawValues(HandleRawValues(f)) == HandleRawValues(f)
  {
    var g := HandleRawValues(f);
    WithCountsKeys(f, RawDataMap);
    WithCountsKeys(g, RawDataMap);
    forall k | k in g
      ensures Get(HandleRawValues(g), k) == Get(g, k)
    {
      RawValuesStableAt(f, k);
    }
  }

  lemma {:induction false} RawValuesStableAt(f: Fields, k: string)
    ensures Get(HandleRawValues(HandleRawValues(f)), k) == Get(HandleRawValues(f), k)
  {
    var g := HandleRawValues(f);
    var es := RawDataMap;
    RawDataMapSeparate();
    WritesOf(es, k);
    if k in Writes(es) {
      var i :| 0 <= i < |es| && (es[i].1 == k || es[i].2 == k);
      WithCountsAt(f, es, i);
      WithCountsAt(g, es, i);
      WritesOf(es, es[i].0);
      WithCountsKeeps(f, es, es[i].0);
    } else {
      WithCountsKeeps(g, es, k);
    }
  }

  // ---------------------------------------------------------------------
  // convert_to_numerics
  // ---------------------------------------------------------------------

  /** The fields `convert_to_numerics` converts, in its order. */
  const IntegerFields: seq<string> := ["knockdowns",
    "tot_str_landed", "tot_str_attempted",
    "td_landed", "td_attempted",
    "sub_attempts", "reversals",
    "sig_str_landed",
    "head_str_landed", "head_str_attempted",
    "body_str_landed", "body_str_attempted",
    "leg_str_landed", "leg_str_attempted",
    "distance_str_landed", "distance_str_attempted",
    "clinch_str_landed", "clinch_str_attempted",
    "ground_str_landed", "ground_str_attempted"]

  lemma {:induction false} IntegerFieldsDeclared()
    ensures forall i :: 0 <= i < |IntegerFields| ==> IntegerFields[i] in ScrapyFields(FighterFightItem)
  {
  }

  /** `int(x)` of a float: truncation toward zero. */
  function Trunc(x: real): (n: int)
    ensures 0.0 <= x ==> 0 <= n && n as real <= x < n as real + 1.0
    ensures x < 0.0 ==> n <= 0 && n as real - 1.0 < x <= n as real
  {
    if x >= 0.0 then x.Floor else -((-x).Floor)
  }

  /**
   * `int(float(v))` for a string and `int(v)` otherwise; None where Python
   * raises `ValueError` or `TypeError`. `parseFloat` is Python's `float()` on
   * text (None where it raises).
   */
  function IntOfValue(v: Value, parseFloat: string -> Option<real>): (n: Option<int>)
    ensures IsInt(v) ==> n == Some(IntOf(v))
  {
    match v
    case Int(i) => Some(i)
    case Bool(b) => Some(if b then 1 else 0)
    case Real(x) => Some(Trunc(x))
    case Str(s) => (match parseFloat(s) case Some(x) => Some(Trunc(x)) case None => None)
    case _ => None
  }

  /** A set value `convert_to_numerics` cannot turn into an integer. */
  predicate Unconvertible(v: Value, parseFloat: string -> Option<real>) {
    v != Null && IntOfValue(v, parseFloat).None?
  }

  /**
   * The loop of `convert_to_numerics` as written: a set field becomes its
   * integer; a failed conversion reaches `self.logger.warning`, and since the
   * pipeline defines no `__init__`, that lookup raises `AttributeError`.
   */
  function ConvertFields(f: Fields, fs: seq<string>, parseFloat: string -> Option<real>): (r: Step)
    ensures r.fields.Keys == f.Keys
    ensures r.error.Some? ==> r.error == Some(AttributeError)
    decreases |fs|
  {
    if fs == [] then Step(f, None)
    else
      var s := ConvertFields(f, fs[..|fs| - 1], parseFloat);
      if s.error.Some? then s
      else
        var k := fs[|fs| - 1];
        var v := Get(s.fields, k);
        if v == Null then s
        else match IntOfValue(v, parseFloat)
          case Some(n) => Step(s.fields[k := Int(n)], None)
          case None => Step(s.fields, Some(AttributeError))
  }

  /** One field as the intended `convert_to_numerics` leaves it: converted when it can be, else kept. */
  function Converted(v: Value, parseFloat: string -> Option<real>): (w: Value)
    ensures w == v || w.Int?
  {
    if v != Null && IntOfValue(v, parseFloat).Some? then Int(IntOfValue(v, parseFloat).value) else v
  }

  /** The loop of `convert_to_numerics` as its authors meant it: a failed conversion is logged and skipped. */
  function ConvertFieldsLogged(f: Fields, fs: seq<string>, parseFloat: string -> Option<real>): (r: Fields)
    ensures r.Keys == f.Keys
    decreases |fs|
  {
    if fs == [] then f
    else
      var g := ConvertFieldsLogged(f, fs[..|fs| - 1], parseFloat);
      var k := fs[|fs| - 1];
      if Get(g, k) == Null then g else g[k := Converted(g[k], parseFloat)]
  }

  /** Converting an already converted value changes nothing. */
  lemma {:induction false} ConvertedIdempotent(v: Value, parseFloat: string -> Option<real>)
    ensures Converted(Converted(v, parseFloat), parseFloat) == Converted(v, parseFloat)
    ensures Unconvertible(Converted(v, parseFloat), parseFloat) <==> Unconvertible(v, parseFloat)
  {
  }

  /**
   * The intended loop never raises and leaves each listed field converted
   * (when it can be) and every other field as it was.
   */
  lemma {:induction false} LoggedFieldAt(f: Fields, fs: seq<string>, parseFloat: string -> Option<real>, k: string)
    ensures Get(ConvertFieldsLogged(f, fs, parseFloat), k) ==
      if k in fs && k in f then Converted(f[k], parseFloat) else Get(f, k)
    ensures k in ConvertFieldsLogged(f, fs, parseFloat) <==> k in f
    decreases |fs|
  {
    if fs != [] {
      var p := fs[..|fs| - 1];
      LoggedFieldAt(f, p, parseFloat, k);
      assert k in fs <==> k in p || k == fs[|fs| - 1];
      if k in p && k in f {
        ConvertedIdempotent(f[k], parseFloat);
      }
    }
  }

  /**
   * The loop as written raises exactly when some listed field is set to a
   * value that cannot be converted; when it does not raise, it leaves the same
   * fields as the intended loop.
   */
  lemma {:induction false} ConvertRaisesIffUnconvertible(f: Fields, fs: seq<string>, parseFloat: string -> Option<real>)
    ensures var s := ConvertFields(f, fs, parseFloat);
      (s.error.Some? <==> exists i :: 0 <= i < |fs| && Unconvertible(Get(f, fs[i]), parseFloat))
      && (s.error.Some? ==> s.error == Some(AttributeError))
      && (s.error.None? ==> s.fields == ConvertFieldsLogged(f, fs, parseFloat))
    decreases |fs|
  {
    if fs != [] {
      var p := fs[..|fs| - 1];
      var k := fs[|fs| - 1];
      ConvertRaisesIffUnconvertible(f, p, parseFloat);
      var s := ConvertFields(f, p, parseFloat);
      UnconvertibleSplit(f, fs, p, parseFloat);
      if s.error.None? {
        LoggedFieldAt(f, p, parseFloat, k);
        ConvertedIdempotent(Get(f, k), parseFloat);
        assert Unconvertible(Get(s.fields, k), parseFloat) <==> Unconvertible(Get(f, k), parseFloat);
      }
    }
  }

  /** Some listed field is unconvertible iff one before the last is, or the last is. */
  lemma {:induction false} UnconvertibleSplit(f: Fields, fs: seq<string>, p: seq<string>, parseFloat: string -> Option<real>)
    requires fs != [] && p == fs[..|fs| - 1]
    ensures (exists i :: 0 <= i < |fs| && Unconvertible(Get(f, fs[i]), parseFloat)) <==>
      (exists i :: 0 <= i < |p| && Unconvertible(Get(f, p[i]), parseFloat))
      || Unconvertible(Get(f, fs[|fs| - 1]), parseFloat)
  {
    if exists i :: 0 <= i < |fs| && Unconvertible(Get(f, fs[i]), parseFloat) {
      var i :| 0 <= i < |fs| && Unconvertible(Get(f, fs[i]), parseFloat);
      if i < |p| {
        assert p[i] == fs[i];
      }
    }
    if exists i :: 0 <= i < |p| && Unconvertible(Get(f, p[i]), parseFloat) {
      var i :| 0 <= i < |p| && Unconvertible(Get(f, p[i]), parseFloat);
      assert fs[i] == p[i];
    }
  }

  /** Once a conversion has raised, the rest of the loop never runs. */
  lemma {:induction false} ConvertStopsAtError(f: Fields, fs: seq<string>, j: nat, parseFloat: string -> Option<real>)
    requires j <= |fs| && ConvertFields(f, fs[..j], parseFloat).error.Some?
    ensures ConvertFields(f, fs, parseFloat) == ConvertFields(f, fs[..j], parseFloat)
    decreases |fs|
  {
    if j < |fs| {
      var p := fs[..|fs| - 1];
      assert p[..j] == fs[..j];
      ConvertStopsAtError(f, p, j, parseFloat);
    } else {
      assert fs[..j] == fs;
    }
  }

  /** `convert_to_numerics` on an item: the loop as written, over the listed fields. */
  method ConvertToNumericsStep(item: Item, parseFloat: string -> Option<real>) returns (err: Option<PyError>)
    requires IsFighterFight(item)
    modifies item
    ensures IsFighterFight(item)
    ensures Step(item.fields, err) == ConvertFields(old(item.fields), IntegerFields, parseFloat)
  {
    IntegerFieldsDeclared();
    err := ConvertFieldsStep(item, IntegerFields, parseFloat);
  }

  /** The loop of `convert_to_numerics` over the declared fields `fs`. */
  method ConvertFieldsStep(item: Item, fs: seq<string>, parseFloat: string -> Option<real>) returns (err: Option<PyError>)
    requires item.Valid() && forall i :: 0 <= i < |fs| ==> fs[i] in item.declared
    modifies item
    ensures item.Valid()
    ensures Step(item.fields, err) == ConvertFields(old(item.fields), fs, parseFloat)
  {
    ghost var f := item.fields;
    for i := 0 to |fs|
      invariant item.Valid()
      invariant Step(item.fields, None) == ConvertFields(f, fs[..i], parseFloat)
    {
      assert fs[..i + 1][..i] == fs[..i];
      var field := fs[i];
      var value := Get(item.fields, field);
      if value != Null {
        var n := IntOfValue(value, parseFloat);
        if n.None? {
          ConvertStopsAtError(f, fs, i + 1, parseFloat);
          return Some(AttributeError);
        }
        item.Set(field, Int(n.value));
      }
    }
    assert fs[..|fs|] == fs;
    err := None;
  }

  // ---------------------------------------------------------------------
  // FighterFightProcessorPipeline.process_item
  // ---------------------------------------------------------------------

  /** `process_item` on a `FighterFightItem`: an upcoming bout passes; otherwise split, then convert. */
  function ProcessFighterFight(f: Fields, parseFloat: string -> Option<real>): (r: Step)
    ensures Get(f, "event_status") != Str("upcoming") ==> r.fields.Keys == f.Keys + Writes(RawDataMap)
    ensures r.error.Some? ==> r.error == Some(AttributeError)
  {
    if Get(f, "event_status") == Str("upcoming") then Step(f, None)
    else ConvertFields(HandleRawValues(f), IntegerFields, parseFloat)
  }

  method ProcessFighterFightItem(item: Item, parseFloat: string -> Option<real>) returns (err: Option<PyError>)
    requires item.Valid() && item.declared == ScrapyFields(item.kind)
    modifies item
    ensures item.Valid()
    ensures item.kind == FighterFightItem ==> Step(item.fields, err) == ProcessFighterFight(old(item.fields), parseFloat)
    ensures item.kind != FighterFightItem ==> item.fields == old(item.fields) && err.None?
  {
    if item.kind != FighterFightItem || Get(item.fields, "event_status") == Str("upcoming") {
      return None;
    }
    HandleRawValuesStep(item);
    err := ConvertToNumericsStep(item, parseFloat);
  }

  /**
   * On a fought bout, the landed and attempted counts survive the conversion:
   * each is the split of its raw text, and the step raises only because of a
   * listed field outside those counts (knockdowns, submission attempts,
   * reversals) that cannot be converted.
   */
  lemma {:induction false} ProcessedCounts(f: Fields, parseFloat: string -> Option<real>, j: nat)
    requires Get(f, "event_status") != Str("upcoming") && j < |RawDataMap|
    requires ProcessFighterFight(f, parseFloat).error.None?
    ensures Get(ProcessFighterFight(f, parseFloat).fields, RawDataMap[j].1)
      == ScrapyPipelines.SplitCounts(Get(f, RawDataMap[j].0)).0
    ensures Get(ProcessFighterFight(f, parseFloat).fields, RawDataMap[j].2)
      == ScrapyPipelines.SplitCounts(Get(f, RawDataMap[j].0)).1
  {
    var g := HandleRawValues(f);
    var c := ScrapyPipelines.SplitCounts(Get(f, RawDataMap[j].0));
    RawValuesSplit(f, j, "");
    ConvertRaisesIffUnconvertible(g, IntegerFields, parseFloat);
    LoggedFieldAt(g, IntegerFields, parseFloat, RawDataMap[j].1);
    LoggedFieldAt(g, IntegerFields, parseFloat, RawDataMap[j].2);
    ConvertedKeepsInt(c.0, parseFloat);
    ConvertedKeepsInt(c.1, parseFloat);
  }

  /** Converting a count that is already an integer, or None, leaves it as it is. */
  lemma {:induction false} ConvertedKeepsInt(v: Value, parseFloat: string -> Option<real>)
    requires v.Null? || v.Int?
    ensures Converted(v, parseFloat) == v
  {
  }

  /**
   * A knockdown count `float()` rejects (text such as "abc", which the
   * loader's `clean_na` keeps) makes the
   * pipeline as written raise `AttributeError` instead of logging a warning.
   */
  lemma {:induction false} UnparsableCountRaises(f: Fields, parseFloat: string -> Option<real>, s: string)
    requires Get(f, "event_status") != Str("upcoming")
    requires Get(f, "knockdowns") == Str(s) && parseFloat(s).None?
    ensures ProcessFighterFight(f, parseFloat).error == Some(AttributeError)
  {
    var g := HandleRawValues(f);
    KnockdownsNotWritten();
    RawValuesSplit(f, 0, "knockdowns");
    assert Unconvertible(Get(g, IntegerFields[0]), parseFloat);
    ConvertRaisesIffUnconvertible(g, IntegerFields, parseFloat);
  }

  lemma {:induction false} KnockdownsNotWritten()
    ensures "knockdowns" !in Writes(RawDataMap)
  {
    WritesOf(RawDataMap, "knockdowns");
  }

  // ---------------------------------------------------------------------
  // FighterFightUpcomingPipeline
  // ---------------------------------------------------------------------

  /** The statistics cleared on a bout that has not been fought, in the order they are assigned. */
  const UpcomingStatKeys: seq<string> := ["knockdowns", "sub_attempts", "reversals", "ctrl_time",
    "tot_str_landed", "tot_str_attempted", "tot_str_raw", "td_landed", "td_attempted", "td_raw",
    "sig_str_landed", "sig_str_attempted", "sig_str_raw",
    "head_str_landed", "head_str_attempted", "head_str_raw", "body_str_landed", "body_str_attempted", "body_str_raw",
    "leg_str_landed", "leg_str_attempted", "leg_str_raw",
    "distance_str_landed", "distance_str_attempted", "distance_str_raw",
    "clinch_str_landed", "clinch_str_attempted", "clinch_str_raw",
    "ground_str_landed", "ground_str_attempted", "ground_str_raw"]

  const UpcomingStatFields: set<string> := KeySet(UpcomingStatKeys)

  /** `FighterFightUpcomingPipeline.process_item` on a `FighterFightItem`: unless completed, clear the statistics. */
  function UpcomingFighterFight(f: Fields): (r: Fields)
    ensures Get(r, "event_status") == Get(f, "event_status")
    ensures forall k :: k in f && k !in UpcomingStatFields ==> k in r && r[k] == f[k]
  {
    assert "event_status" !in UpcomingStatFields;
    if Get(f, "event_status") == Str("completed") then f else NullOut(f, UpcomingStatFields)
  }

  method UpcomingFighterFightItem(item: Item)
    requires item.Valid() && item.declared == ScrapyFields(item.kind)
    modifies item
    ensures item.Valid()
    ensures item.fields == if item.kind == FighterFightItem then UpcomingFighterFight(old(item.fields)) else old(item.fields)
  {
    if item.kind != FighterFightItem || Get(item.fields, "event_status") == Str("completed") {
      return;
    }
    UpcomingStatKeysDeclared();
    item.ClearAll(UpcomingStatKeys);
  }

  lemma {:induction false} UpcomingStatKeysDeclared()
    ensures forall i :: 0 <= i < |UpcomingStatKeys| ==> UpcomingStatKeys[i] in ScrapyFields(FighterFightItem)
  {
  }

  /**
   * A bout that is not completed keeps its identity and has every statistic
   * None, so that splitting and validating it afterwards finds nothing.
   */
  lemma {:induction false} UpcomingFighterFightClears(f: Fields, k: string)
    ensures Get(f, "event_status") == Str("completed") ==> UpcomingFighterFight(f) == f
    ensures Get(f, "event_status") != Str("completed") && k in UpcomingStatFields ==> UpcomingFighterFight(f)[k] == Null
    ensures k !in UpcomingStatFields ==> Get(UpcomingFighterFight(f), k) == Get(f, k)
    ensures UpcomingFighterFight(UpcomingFighterFight(f)) == UpcomingFighterFight(f)
  {
    StatusNotCleared();
    NullOutFacts(f, UpcomingStatFields, k);
    NullOutFacts(f, UpcomingStatFields, "event_status");
  }

  /** The status that decides whether to clear is not among the cleared fields. */
  lemma {:induction false} StatusNotCleared()
    ensures "event_status" !in UpcomingStatFields
  {
    NotListedByFirst("event_status", UpcomingStatKeys);
  }
}
