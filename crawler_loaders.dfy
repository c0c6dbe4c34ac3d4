/**
 * The input processors of the older crawler's item loaders
 * (`crawler/crawler/loaders.py`): the text cleaners a loader applies to each
 * scraped string before it is stored. The later copy in
 * `data/crawler/loaders.py`, and the spider's own `convert_seconds` and
 * `extract_scheduled_rounds`, share these definitions where the code is the same.
 */
module Loaders {
  import opened Wrappers
  import opened PyText
  import opened Items

  // ---------------------------------------------------------------------
  // clean_na
  // ---------------------------------------------------------------------

  /** The placeholders the site shows for a missing value, compared after `strip().upper()`. */
  predicate NotAvailable(t: string) {
    Upper(Strip(t)) in {"N/A", "--", ""}
  }

  /**
   * `clean_na`: None and the empty string give None, and so does a
   * placeholder; any other text is stripped.
   */
  function CleanNa(text: Option<string>): (r: Option<string>)
    ensures r.Some? ==> r.value != [] && !IsSpace(r.value[0]) && !IsSpace(r.value[|r.value| - 1])
    ensures r.Some? ==> text.Some? && r.value == Strip(text.value)
    ensures text.Some? && !NotAvailable(text.value) ==> r.Some?
  {
    if text.Some? && text.value != [] && NotAvailable(text.value) then None
    else if text.Some? && text.value != [] then Some(Strip(text.value))
    else None
  }

  /** Cleaning a cleaned value changes nothing. */
  lemma {:induction false} CleanNaIdempotent(text: Option<string>)
    ensures CleanNa(CleanNa(text)) == CleanNa(text)
  {
    if CleanNa(text).Some? {
      StripIdempotent(text.value);
    }
  }

  // ---------------------------------------------------------------------
  // extract_id
  // ---------------------------------------------------------------------

  function Last(parts: seq<string>): string
    requires |parts| > 0
  {
    parts[|parts| - 1]
  }

  /** `extract_id`: the last '/'-separated segment of a URL; None or the empty URL give None. */
  function ExtractId(url: Option<string>): (r: Option<string>)
    ensures r.None? <==> url.None? || url.value == []
  {
    if url.None? || url.value == [] then None else Some(Last(SplitOn(url.value, "/")))
  }

  lemma {:induction false} SplitFromNoSep(s: string, c: char, piece: string)
    requires c !in piece
    ensures forall k :: 0 <= k < |SplitFrom(s, [c], piece)| ==> c !in SplitFrom(s, [c], piece)[k]
    decreases |s|
  {
    if |s| > 0 {
      if StartsWith(s, [c]) {
        SplitFromNoSep(s[1..], c, []);
      } else {
        assert s[0] != c;
        SplitFromNoSep(s[1..], c, piece + [s[0]]);
      }
    }
  }

  lemma {:induction false} JoinLast(sep: string, parts: seq<string>)
    requires |parts| > 1
    ensures Join(sep, parts) == Join(sep, parts[..|parts| - 1]) + sep + Last(parts)
    decreases |parts|
  {
    if |parts| > 2 {
      JoinLast(sep, parts[1..]);
      assert parts[1..][..|parts| - 2] == parts[..|parts| - 1][1..];
    }
  }

  /**
   * The id is a suffix of the URL with no '/' in it, and it is either the whole
   * URL or what follows a '/'.
   */
  lemma {:induction false} ExtractIdIsLastSegment(url: string)
    requires url != []
    ensures var id := ExtractId(Some(url)).value;
      '/' !in id && exists p :: url == p + id && (p == [] || p[|p| - 1] == '/')
  {
    var parts := SplitOn(url, "/");
    var id := Last(parts);
    JoinSplit(url, "/");
    SplitFromNoSep(url, '/', []);
    if |parts| == 1 {
      assert url == [] + id;
    } else {
      JoinLast("/", parts);
      var p := Join("/", parts[..|parts| - 1]) + "/";
      assert url == p + id;
    }
  }

  /** The id of `base/id` is `id` whenever `id` holds no '/'. */
  lemma {:induction false} ExtractIdOfUrl(base: string, id: string)
    requires '/' !in id
    ensures ExtractId(Some(base + "/" + id)) == Some(id)
  {
    var url := base + "/" + id;
    ExtractIdIsLastSegment(url);
    var r := ExtractId(Some(url)).value;
    var p :| url == p + r && (p == [] || p[|p| - 1] == '/');
    assert url[|base|] == '/';
    assert r == url[|url| - |r|..];
    assert id == url[|url| - |id|..];
  }

  // ---------------------------------------------------------------------
  // parse_weight: the weight class of a bout title
  // ---------------------------------------------------------------------

  /*
   * `parse_weight` collapses the whitespace of the title (`" ".join(text.split())`)
   * and searches it for `(?:UFC\s+)?(?:Interim\s+)?(.+?)(?:\s+Title)?\s+Bout`,
   * ignoring case. On collapsed text every `\s+` is the single space between
   * two words, so the search is a search over the words: the prefixes are
   * whole words, the lazy group ends at the end of the first word followed by
   * "Title" and a word starting "Bout", or by a word starting "Bout", and the
   * leftmost match starts at the first word. The prefixes are tried taken
   * before skipped, the group shortest first.
   */

  /** A word the pattern's literal `lit` (lower case) matches, ignoring case. */
  predicate WordIs(w: string, lit: string) {
    Lower(w) == lit
  }

  /** A word that `Bout` matches at its start, ignoring case. */
  predicate BoutWord(w: string) {
    StartsWith(Lower(w), "bout")
  }

  /** The group may end after word `i`: the rest reads " Title Bout…" or " Bout…". */
  predicate EndsGroup(ws: seq<string>, i: nat) {
    (i + 2 < |ws| && WordIs(ws[i + 1], "title") && BoutWord(ws[i + 2]))
    || (i + 1 < |ws| && BoutWord(ws[i + 1]))
  }

  /** The lazy group starting at word `i`: the first word after which it may end. */
  function GroupEnd(ws: seq<string>, i: nat): (r: Option<nat>)
    ensures r.Some? ==> i <= r.value && EndsGroup(ws, r.value)
    ensures r.Some? ==> forall j :: i <= j < r.value ==> !EndsGroup(ws, j)
    decreases |ws| - i
  {
    if i >= |ws| then None
    else if EndsGroup(ws, i) then Some(i)
    else GroupEnd(ws, i + 1)
  }

  /** Where the group may start, in the order the optional prefixes are tried. */
  function Starts(ws: seq<string>): (r: seq<nat>)
    ensures |r| > 0 && r[|r| - 1] == 0
  {
    var afterUfc :=
      if |ws| > 1 && WordIs(ws[0], "ufc") then
        (if |ws| > 2 && WordIs(ws[1], "interim") then [2, 1] else [1])
      else [];
    var fromFirst := if |ws| > 1 && WordIs(ws[0], "interim") then [1, 0] else [0];
    afterUfc + fromFirst
  }

  /** The first start whose group can end: the group's first and last word. */
  function FirstMatch(ws: seq<string>, starts: seq<nat>): (r: Option<(nat, nat)>)
    ensures r.Some? ==> r.value.0 in starts && GroupEnd(ws, r.value.0) == Some(r.value.1)
    ensures r.None? ==> forall k :: 0 <= k < |starts| ==> GroupEnd(ws, starts[k]).None?
  {
    if starts == [] then None
    else match GroupEnd(ws, starts[0])
      case Some(e) => Some((starts[0], e))
      case None =>
        var r := FirstMatch(ws, starts[1..]);
        assert forall k :: 0 < k < |starts| ==> starts[k] == starts[1..][k - 1];
        r
  }

  /** `parse_weight`: the weight class named in a bout title, or "Unknown". */
  function ParseWeight(text: Option<string>): (r: string)
    ensures text.None? || text.value == [] ==> r == "Unknown"
  {
    if text.None? || text.value == [] then "Unknown" else WeightOfWords(SplitWhitespace(text.value))
  }

  /** The search over the words of the collapsed title; the group is stripped. */
  function WeightOfWords(ws: seq<string>): string {
    var m := FirstMatch(ws, Starts(ws));
    if m.None? then "Unknown" else GroupText(ws, m.value.0, m.value.1)
  }

  /** The words `s` to `e`, joined by single spaces and stripped. */
  function GroupText(ws: seq<string>, s: nat, e: nat): string
    requires s <= e < |ws|
  {
    Strip(Join(" ", ws[s..e + 1]))
  }

  lemma {:induction false} GroupEndFinds(ws: seq<string>, i: nat, k: nat)
    requires i <= k && EndsGroup(ws, k)
    ensures GroupEnd(ws, i).Some?
    decreases k - i
  {
    if !EndsGroup(ws, i) {
      GroupEndFinds(ws, i + 1, k);
    }
  }

  /**
   * The title holds a weight class exactly when some word after the first
   * starts with "Bout"; otherwise the result is "Unknown".
   */
  lemma {:induction false} ParseWeightFinds(text: string)
    ensures var ws := SplitWhitespace(text);
      FirstMatch(ws, Starts(ws)).Some? <==> exists j :: 1 <= j < |ws| && BoutWord(ws[j])
    ensures (forall j :: 1 <= j < |SplitWhitespace(text)| ==> !BoutWord(SplitWhitespace(text)[j]))
      ==> WeightOfWords(SplitWhitespace(text)) == "Unknown" && ParseWeight(Some(text)) == "Unknown"
  {
    var ws := SplitWhitespace(text);
    if exists j :: 1 <= j < |ws| && BoutWord(ws[j]) {
      var j :| 1 <= j < |ws| && BoutWord(ws[j]);
      BoutWordFinds(ws, j);
    }
    var m := FirstMatch(ws, Starts(ws));
    if m.Some? {
      var j := FoundBoutWord(ws);
      assert 1 <= j < |ws| && BoutWord(ws[j]);
    }
  }

  lemma {:induction false} BoutWordFinds(ws: seq<string>, j: nat)
    requires 1 <= j < |ws| && BoutWord(ws[j])
    ensures FirstMatch(ws, Starts(ws)).Some?
  {
    assert EndsGroup(ws, j - 1);
    GroupEndFinds(ws, 0, j - 1);
    var st := Starts(ws);
    assert st[|st| - 1] == 0;
  }

  lemma {:induction false} FoundBoutWord(ws: seq<string>) returns (j: nat)
    requires FirstMatch(ws, Starts(ws)).Some?
    ensures 1 <= j < |ws| && BoutWord(ws[j])
  {
    var e := FirstMatch(ws, Starts(ws)).value.1;
    assert EndsGroup(ws, e);
    if e + 1 < |ws| && BoutWord(ws[e + 1]) {
      j := e + 1;
    } else {
      j := e + 2;
    }
  }

  /** Non-empty words without whitespace. */
  predicate Words(ws: seq<string>) {
    forall k :: 0 <= k < |ws| ==> |ws[k]| > 0 && NoSpaces(ws[k])
  }

  lemma {:induction false} TokenPrefixOf(d: string, rest: string)
    requires NoSpaces(d) && (rest == [] || IsSpace(rest[0]))
    ensures TokenPrefix(d + rest) == d
    decreases |d|
  {
    if |d| > 0 {
      assert (d + rest)[1..] == d[1..] + rest;
      assert !IsSpace(d[0]);
      TokenPrefixOf(d[1..], rest);
    } else {
      assert d + rest == rest;
    }
  }

  /** Splitting words joined by single spaces gives back the words. */
  lemma {:induction false} SplitJoinWords(ws: seq<string>)
    requires Words(ws)
    ensures SplitWhitespace(Join(" ", ws)) == ws
    decreases |ws|
  {
    if |ws| == 1 {
      TokenPrefixOf(ws[0], []);
      assert ws[0] + [] == ws[0];
      assert !IsSpace(ws[0][0]);
    } else if |ws| > 1 {
      var rest := Join(" ", ws[1..]);
      var s := ws[0] + " " + rest;
      assert s == ws[0] + (" " + rest);
      TokenPrefixOf(ws[0], " " + rest);
      assert !IsSpace(ws[0][0]) && s[0] == ws[0][0];
      assert s[|ws[0]|..] == " " + rest;
      assert (" " + rest)[1..] == rest;
      SplitJoinWords(ws[1..]);
    }
  }

  /** Words joined by spaces start and end with a non-space. */
  lemma {:induction false} JoinWordsEnds(ws: seq<string>)
    requires |ws| > 0 && Words(ws)
    ensures var s := Join(" ", ws); |s| > 0 && !IsSpace(s[0]) && !IsSpace(s[|s| - 1])
    decreases |ws|
  {
    if |ws| > 1 {
      JoinWordsEnds(ws[1..]);
      var rest := Join(" ", ws[1..]);
      assert Join(" ", ws) == ws[0] + " " + rest;
    }
  }

  /** The words of a class name that none of the pattern's literals can match. */
  predicate PlainWords(c: seq<string>) {
    |c| > 0 && Words(c)
    && forall k :: 0 <= k < |c| ==>
      !WordIs(c[k], "ufc") && !WordIs(c[k], "interim") && !WordIs(c[k], "title") && !BoutWord(c[k])
  }

  /** The optional words before the class name in a bout title. */
  function Prefix(ufc: bool, interim: bool): seq<string> {
    (if ufc then ["UFC"] else []) + (if interim then ["Interim"] else [])
  }

  /** The words after the class name: an optional "Title", then "Bout". */
  function Suffix(title: bool): seq<string> {
    if title then ["Title", "Bout"] else ["Bout"]
  }

  /** A bout title: the class name with the optional decorations the pattern drops. */
  function Decorated(c: seq<string>, ufc: bool, interim: bool, title: bool): seq<string> {
    Prefix(ufc, interim) + c + Suffix(title)
  }

  lemma {:induction false} Literals()
    ensures WordIs("UFC", "ufc") && WordIs("Interim", "interim") && WordIs("Title", "title")
    ensures BoutWord("Bout") && !BoutWord("Title") && !WordIs("UFC", "interim")
  {
    assert Lower("UFC") == "ufc";
    assert Lower("Interim") == "interim";
    assert Lower("Title") == "title";
    assert Lower("Bout") == "bout";
    assert Lower("Title")[..4][0] == 't';
  }

  lemma {:induction false} DecoratedWords(c: seq<string>, ufc: bool, interim: bool, title: bool)
    requires |c| > 0 && Words(c)
    ensures Words(Decorated(c, ufc, interim, title))
  {
    var pre, post := Prefix(ufc, interim), Suffix(title);
    LiteralWords();
    WordsAppend(if ufc then ["UFC"] else [], if interim then ["Interim"] else []);
    WordsAppend(pre, c);
    WordsAppend(pre + c, post);
  }

  lemma {:induction false} LiteralWords()
    ensures Words(["UFC"]) && Words(["Interim"]) && Words(["Title", "Bout"]) && Words(["Bout"])
  {
    assert NoSpaces("UFC") && NoSpaces("Interim") && NoSpaces("Title") && NoSpaces("Bout");
  }

  lemma {:induction false} WordsAppend(a: seq<string>, b: seq<string>)
    requires Words(a) && Words(b)
    ensures Words(a + b)
  {
    forall k | 0 <= k < |a + b|
      ensures |(a + b)[k]| > 0 && NoSpaces((a + b)[k])
    {
      if k < |a| {
        assert (a + b)[k] == a[k];
      } else {
        assert (a + b)[k] == b[k - |a|];
      }
    }
  }

  lemma {:induction false} DecoratedGroup(c: seq<string>, ufc: bool, interim: bool, title: bool)
    requires PlainWords(c)
    ensures GroupEnd(Decorated(c, ufc, interim, title), |Prefix(ufc, interim)|)
      == Some(|Prefix(ufc, interim)| + |c| - 1)
  {
    Literals();
    var pre, post := Prefix(ufc, interim), Suffix(title);
    var ws := Decorated(c, ufc, interim, title);
    assert ws == pre + c + post;
    var s := |pre|;
    var e := s + |c| - 1;
    assert forall k :: 0 <= k < |c| ==> ws[s + k] == c[k];
    assert forall k :: 0 <= k < |post| ==> ws[s + |c| + k] == post[k];
    assert EndsGroup(ws, e) by {
      if title {
        assert ws[e + 1] == "Title" && ws[e + 2] == "Bout";
      } else {
        assert ws[e + 1] == "Bout";
      }
    }
    forall j | s <= j < e
      ensures !EndsGroup(ws, j)
    {
      assert ws[j + 1] == c[j + 1 - s];
    }
    GroupEndAt(ws, s, e);
  }

  /** The lazy group from `i` ends at `k` when `k` is the first word after `i` where it may end. */
  lemma {:induction false} GroupEndAt(ws: seq<string>, i: nat, k: nat)
    requires i <= k && EndsGroup(ws, k)
    requires forall j :: i <= j < k ==> !EndsGroup(ws, j)
    ensures GroupEnd(ws, i) == Some(k)
  {
    GroupEndFinds(ws, i, k);
  }

  lemma {:induction false} DecoratedStart(c: seq<string>, ufc: bool, interim: bool, title: bool)
    requires PlainWords(c)
    ensures Starts(Decorated(c, ufc, interim, title))[0] == |Prefix(ufc, interim)|
  {
    Literals();
    var pre := Prefix(ufc, interim);
    var ws := Decorated(c, ufc, interim, title);
    assert |ws| > |pre| + 1;
    assert ws[|pre|] == c[0];
    if ufc {
      assert ws[0] == "UFC";
      if interim {
        assert ws[1] == "Interim";
      }
    } else if interim {
      assert ws[0] == "Interim";
    }
  }

  /**
   * Any decoration of a class name parses back to the class name: "UFC",
   * "Interim" and "Title" are dropped, and words are rejoined by single spaces.
   */
  lemma {:induction false} ParseWeightDecorated(c: seq<string>, ufc: bool, interim: bool, title: bool)
    requires PlainWords(c)
    ensures ParseWeight(Some(Join(" ", Decorated(c, ufc, interim, title)))) == Join(" ", c)
  {
    var ws := Decorated(c, ufc, interim, title);
    var s := |Prefix(ufc, interim)|;
    DecoratedWords(c, ufc, interim, title);
    DecoratedGroup(c, ufc, interim, title);
    DecoratedStart(c, ufc, interim, title);
    assert FirstMatch(ws, Starts(ws)) == Some((s, s + |c| - 1));
    ParseWeightOfWords(ws, s, s + |c| - 1);
    assert ws[s..s + |c|] == c;
    StripWords(c);
  }

  lemma {:induction false} ParseWeightOfWords(ws: seq<string>, s: nat, e: nat)
    requires |ws| > 0 && Words(ws) && FirstMatch(ws, Starts(ws)) == Some((s, e))
    ensures s <= e < |ws|
    ensures ParseWeight(Some(Join(" ", ws))) == Strip(Join(" ", ws[s..e + 1]))
  {
    assert GroupEnd(ws, s) == Some(e);
    assert EndsGroup(ws, e);
    var t := Join(" ", ws);
    JoinWordsEnds(ws);
    SplitJoinWords(ws);
    ParseWeightOfText(t);
    WeightOfMatch(ws, s, e);
  }

  lemma {:induction false} ParseWeightOfText(t: string)
    requires t != []
    ensures ParseWeight(Some(t)) == WeightOfWords(SplitWhitespace(t))
  {
  }

  lemma {:induction false} WeightOfMatch(ws: seq<string>, s: nat, e: nat)
    requires FirstMatch(ws, Starts(ws)) == Some((s, e)) && s <= e < |ws|
    ensures WeightOfWords(ws) == Strip(Join(" ", ws[s..e + 1]))
  {
    MatchParts(ws, s, e);
  }

  lemma {:induction false} MatchParts(ws: seq<string>, s: nat, e: nat)
    requires FirstMatch(ws, Starts(ws)) == Some((s, e))
    ensures FirstMatch(ws, Starts(ws)).value.0 == s && FirstMatch(ws, Starts(ws)).value.1 == e
  {
  }

  lemma {:induction false} StripWords(c: seq<string>)
    requires |c| > 0 && Words(c)
    ensures Strip(Join(" ", c)) == Join(" ", c)
  {
    JoinWordsEnds(c);
    StripPadded([], Join(" ", c), []);
    assert [] + Join(" ", c) + [] == Join(" ", c);
  }

  // ---------------------------------------------------------------------
  // check_title, determine_gender
  // ---------------------------------------------------------------------

  /** `check_title`: 1 when the text mentions a title, in any letter case, else 0. */
  function CheckTitle(text: string): (r: int)
    ensures r == 0 || r == 1
  {
    if Contains(Lower(text), "title") then 1 else 0
  }

  /** `determine_gender`: "Women" when the text mentions women, in any letter case, else "Men". */
  function DetermineGender(text: string): (r: string)
    ensures r == "Women" || r == "Men"
  {
    if Contains(Lower(text), "women") then "Women" else "Men"
  }

  /** Lower-casing is done a character at a time, so a lower-case word inside the text is found. */
  lemma {:induction false} ContainsLowered(p: string, w: string, q: string, lit: string)
    requires Lower(w) == lit
    ensures Contains(Lower(p + w + q), lit)
  {
    LowerAppend(p + w, q);
    LowerAppend(p, w);
    var s := Lower(p + w + q);
    assert s[|p|..|p| + |lit|] == lit;
    assert OccursAt(s, lit, |p|);
    ContainsAt(s, lit);
  }

  /** Every title bout is flagged as a title fight. */
  lemma {:induction false} TitleBoutFlagged(c: seq<string>, ufc: bool, interim: bool)
    requires PlainWords(c)
    ensures CheckTitle(Join(" ", Decorated(c, ufc, interim, true))) == 1
  {
    var ws := Decorated(c, ufc, interim, true);
    assert |ws| > 2 && ws[|ws| - 2] == "Title" && ws[|ws| - 1] == "Bout";
    var p := JoinTitleBout(ws);
    Literals();
    ContainsLowered(p, "Title", " Bout", "title");
  }

  /** Words ending in "Title Bout" join to a text ending in "Title Bout". */
  lemma {:induction false} JoinTitleBout(ws: seq<string>) returns (p: string)
    requires |ws| > 2 && ws[|ws| - 2] == "Title" && ws[|ws| - 1] == "Bout"
    ensures Join(" ", ws) == p + "Title" + " Bout"
  {
    var n := |ws|;
    JoinLast(" ", ws);
    JoinLast(" ", ws[..n - 1]);
    assert ws[..n - 1][..n - 2] == ws[..n - 2];
    p := Join(" ", ws[..n - 2]) + " ";
  }

  /** "women" anywhere, in any letter case, makes a women's bout. */
  lemma {:induction false} WomenInAnyCase(p: string, w: string, q: string)
    requires Lower(w) == "women"
    ensures DetermineGender(p + w + q) == "Women"
  {
    ContainsLowered(p, w, q, "women");
  }

  /** A women's bout is exactly one whose lower-cased text has "women" at some position. */
  lemma {:induction false} GenderByOccurrence(text: string)
    ensures DetermineGender(text) == "Women" <==> exists i :: OccursAt(Lower(text), "women", i)
  {
    ContainsAt(Lower(text), "women");
  }

  // ---------------------------------------------------------------------
  // extract_scheduled_rounds, convert_seconds
  // ---------------------------------------------------------------------

  /** `int(text.split()[0])`: blank text raises `IndexError`, a first word `int()` rejects `ValueError`. */
  function ExtractScheduledRounds(text: string): (r: Result<int, PyError>)
    ensures r.Err? ==> r.error == IndexError || r.error == ValueError
    ensures r.Err? && r.error == IndexError <==> AllSpaces(text)
  {
    var ws := SplitWhitespace(text);
    if ws == [] then Err(IndexError)
    else match ParseInt(ws[0])
      case None => Err(ValueError)
      case Some(n) => Ok(n)
  }

  /** A time format such as "3 Rnd (5-5-5)" gives its leading number of rounds. */
  lemma {:induction false} ScheduledRoundsOf(n: nat, rest: string)
    requires rest == [] || IsSpace(rest[0])
    ensures ExtractScheduledRounds(ShowNat(n) + rest) == Ok(n)
  {
    var d := ShowNat(n);
    assert NoSpaces(d) by {
      forall i | 0 <= i < |d| ensures !IsSpace(d[i]) {
        assert IsDigit(d[i]);
      }
    }
    TokenPrefixOf(d, rest);
    assert (d + rest)[0] == d[0] && IsDigit(d[0]);
    ParseShowNat(n);
  }

  /**
   * `convert_seconds`: the empty text is None; otherwise the text must split
   * at ':' into exactly two parts that `int()` accepts, else `ValueError`.
   */
  function ConvertSeconds(text: string): (r: Result<Option<int>, PyError>)
    ensures r.Err? ==> r.error == ValueError
    ensures r == Ok(None) <==> text == []
  {
    if text == [] then Ok(None)
    else
      var parts := SplitOn(text, ":");
      if |parts| != 2 then Err(ValueError)
      else match (ParseInt(parts[0]), ParseInt(parts[1]))
        case (Some(mm), Some(ss)) => Ok(Some(mm * 60 + ss))
        case _ => Err(ValueError)
  }

  /** Seconds of a minute in two digits. */
  function Pad2(ss: nat): string {
    (if ss < 10 then "0" else "") + ShowNat(ss)
  }

  /** Seconds as the site prints a clock: minutes, a colon and two-digit seconds. */
  function ShowClock(n: nat): string {
    ShowNat(n / 60) + ":" + Pad2(n % 60)
  }

  /** The two-digit seconds of a clock read back as the seconds. */
  lemma {:induction false} Pad2Digits(ss: nat)
    requires ss < 60
    ensures AllDigits(Pad2(ss)) && ':' !in Pad2(ss) && ParseInt(Pad2(ss)) == Some(ss)
  {
    var sd := Pad2(ss);
    if ss < 10 {
      PaddedDigit(ss);
    } else {
      assert sd == ShowNat(ss);
      DigitsShowNat(ss);
    }
    ParseDigits(sd);
    assert forall i :: 0 <= i < |sd| ==> IsDigit(sd[i]);
  }

  /** A single digit padded with a zero reads back as that digit. */
  lemma {:induction false} PaddedDigit(ss: nat)
    requires ss < 10
    ensures Pad2(ss) == ['0', DigitChar(ss)] && AllDigits(Pad2(ss)) && DigitsValue(Pad2(ss)) == ss
  {
    var sd := ['0', DigitChar(ss)];
    assert Pad2(ss) == sd;
    assert sd[..1] == ['0'];
    assert sd[..1][..0] == [];
    assert DigitsValue(['0']) == 0;
    assert DigitValue(DigitChar(ss)) == ss;
  }

  lemma {:induction false} ShowNatNoColon(n: nat)
    ensures ':' !in ShowNat(n)
  {
    var m := ShowNat(n);
    assert forall i :: 0 <= i < |m| ==> IsDigit(m[i]);
  }

  /** Minutes and two-digit seconds read back as the number of seconds. */
  lemma {:induction false} ConvertSecondsOfMinutes(mm: nat, ss: nat)
    requires ss < 60
    ensures ConvertSeconds(ShowNat(mm) + ":" + Pad2(ss)) == Ok(Some(mm * 60 + ss))
  {
    Pad2Digits(ss);
    ShowNatNoColon(mm);
    SplitAround(ShowNat(mm), ":", Pad2(ss));
    ParseShowNat(mm);
    ConvertSecondsOfParts(ShowNat(mm) + ":" + Pad2(ss), ShowNat(mm), Pad2(ss), mm, ss);
  }

  /** Reading a printed clock gives back the seconds. */
  lemma {:induction false} ConvertSecondsOfClock(n: nat)
    ensures ConvertSeconds(ShowClock(n)) == Ok(Some(n))
  {
    ConvertSecondsOfMinutes(n / 60, n % 60);
  }

  lemma {:induction false} ConvertSecondsOfParts(text: string, p: string, q: string, a: int, b: int)
    requires text != [] && SplitOn(text, ":") == [p, q]
    requires ParseInt(p) == Some(a) && ParseInt(q) == Some(b)
    ensures ConvertSeconds(text) == Ok(Some(a * 60 + b))
  {
  }

  /** The placeholder "--" has no ':' and raises. */
  lemma {:induction false} ConvertSecondsOfDashes()
    ensures ConvertSeconds("--") == Err(ValueError)
  {
    NotContainsChar("--", ":", 0);
    SplitOnOne("--", ":");
  }
}
