/**
 * Calendar dates, Python's ordering of strings, and the row order that
 * `sort_values(['fighter_id', 'event_date', 'fight_id'])` produces, modelled
 * as an insertion sort whose result is proved sorted and a permutation.
 */
module Chrono {

  /** A calendar date as pandas' `Timestamp` exposes it: `.year`, `.month`, `.day`. */
  datatype Date = Date(year: int, month: int, day: int)

  /** Chronological order: by year, then month, then day. */
  predicate DateLt(a: Date, b: Date) {
    a.year < b.year || (a.year == b.year && (a.month < b.month || (a.month == b.month && a.day < b.day)))
  }

  /** Python's `a < b` on strings: by code point, a proper prefix first. */
  predicate StrLt(a: string, b: string)
    decreases |a|
  {
    if |b| == 0 then false
    else if |a| == 0 then true
    else if a[0] != b[0] then a[0] < b[0]
    else StrLt(a[1..], b[1..])
  }

  lemma {:induction false} StrLtIrreflexive(a: string)
    ensures !StrLt(a, a)
    decreases |a|
  {
    if |a| > 0 {
      StrLtIrreflexive(a[1..]);
    }
  }

  lemma {:induction false} StrLtTransitive(a: string, b: string, c: string)
    requires StrLt(a, b) && StrLt(b, c)
    ensures StrLt(a, c)
    decreases |a|
  {
    if |a| > 0 && a[0] == b[0] && b[0] == c[0] {
      StrLtTransitive(a[1..], b[1..], c[1..]);
    }
  }

  lemma {:induction false} StrLtTotal(a: string, b: string)
    requires a != b
    ensures StrLt(a, b) || StrLt(b, a)
    decreases |a|
  {
    if |a| > 0 && |b| > 0 && a[0] == b[0] {
      assert a == [a[0]] + a[1..] && b == [b[0]] + b[1..];
      StrLtTotal(a[1..], b[1..]);
    }
  }

  /** The row key `(fighter_id, event_date, fight_id)`. */
  datatype SortKey = SortKey(fighter: string, date: Date, fight: string)

  /** The order pandas sorts the keys in: lexicographic over the three columns. */
  predicate KeyLt(a: SortKey, b: SortKey) {
    StrLt(a.fighter, b.fighter)
    || (a.fighter == b.fighter && (DateLt(a.date, b.date)
      || (a.date == b.date && StrLt(a.fight, b.fight))))
  }

  predicate KeyLe(a: SortKey, b: SortKey) {
    a == b || KeyLt(a, b)
  }

  lemma {:induction false} KeyLtIrreflexive(a: SortKey)
    ensures !KeyLt(a, a)
  {
    StrLtIrreflexive(a.fighter);
    StrLtIrreflexive(a.fight);
  }

  lemma {:induction false} KeyLtTransitive(a: SortKey, b: SortKey, c: SortKey)
    requires KeyLt(a, b) && KeyLt(b, c)
    ensures KeyLt(a, c)
  {
    if StrLt(a.fighter, b.fighter) && StrLt(b.fighter, c.fighter) {
      StrLtTransitive(a.fighter, b.fighter, c.fighter);
    }
    if a.fighter == b.fighter == c.fighter && a.date == b.date == c.date
       && StrLt(a.fight, b.fight) && StrLt(b.fight, c.fight) {
      StrLtTransitive(a.fight, b.fight, c.fight);
    }
  }

  lemma {:induction false} KeyLtTotal(a: SortKey, b: SortKey)
    ensures KeyLe(a, b) || KeyLt(b, a)
  {
    if a.fighter != b.fighter {
      StrLtTotal(a.fighter, b.fighter);
    } else if a.date == b.date && a.fight != b.fight {
      StrLtTotal(a.fight, b.fight);
    }
  }

  /** A key is never below a key it is at most. */
  lemma {:induction false} KeyLeNotGt(a: SortKey, b: SortKey)
    ensures KeyLe(a, b) ==> !KeyLt(b, a)
  {
    KeyLtIrreflexive(a);
    if KeyLt(a, b) && KeyLt(b, a) {
      KeyLtTransitive(a, b, a);
    }
  }

  lemma {:induction false} KeyLeTransitive(a: SortKey, b: SortKey, c: SortKey)
    requires KeyLe(a, b) && KeyLe(b, c)
    ensures KeyLe(a, c)
  {
    if KeyLt(a, b) && KeyLt(b, c) {
      KeyLtTransitive(a, b, c);
    }
  }

  /** Every row's key is at most the key of every later row. */
  predicate SortedBy<T>(s: seq<T>, key: T -> SortKey) {
    forall i, j :: 0 <= i < j < |s| ==> KeyLe(key(s[i]), key(s[j]))
  }

  /** Place `x` before the first row whose key is not below its own. */
  function Insert<T>(x: T, s: seq<T>, key: T -> SortKey): (r: seq<T>)
    ensures multiset(r) == multiset(s) + multiset{x}
    ensures |r| == |s| + 1
    decreases |s|
  {
    if |s| == 0 || KeyLe(key(x), key(s[0])) then [x] + s
    else
      var rest := Insert(x, s[1..], key);
      assert s == [s[0]] + s[1..];
      [s[0]] + rest
  }

  /** `sort_values` on the key: an insertion sort. */
  function Sort<T>(s: seq<T>, key: T -> SortKey): (r: seq<T>)
    ensures multiset(r) == multiset(s)
    ensures |r| == |s|
    decreases |s|
  {
    if |s| == 0 then []
    else
      assert s == [s[0]] + s[1..];
      Insert(s[0], Sort(s[1..], key), key)
  }

  /** Every key of the inserted sequence is a key of `s` or the key of `x`. */
  lemma {:induction false} InsertKeys<T>(x: T, s: seq<T>, key: T -> SortKey, b: SortKey)
    requires forall j :: 0 <= j < |s| ==> KeyLe(b, key(s[j]))
    requires KeyLe(b, key(x))
    ensures forall j :: 0 <= j < |Insert(x, s, key)| ==> KeyLe(b, key(Insert(x, s, key)[j]))
    decreases |s|
  {
    if |s| > 0 && !KeyLe(key(x), key(s[0])) {
      InsertKeys(x, s[1..], key, b);
    }
  }

  lemma {:induction false} InsertSorted<T>(x: T, s: seq<T>, key: T -> SortKey)
    requires SortedBy(s, key)
    ensures SortedBy(Insert(x, s, key), key)
    decreases |s|
  {
    var r := Insert(x, s, key);
    if |s| == 0 {
    } else if KeyLe(key(x), key(s[0])) {
      forall i, j | 0 <= i < j < |r| ensures KeyLe(key(r[i]), key(r[j])) {
        if i == 0 && j > 1 {
          KeyLeTransitive(key(x), key(s[0]), key(s[j - 1]));
        }
      }
    } else {
      KeyLtTotal(key(x), key(s[0]));
      var rest := Insert(x, s[1..], key);
      assert SortedBy(s[1..], key);
      InsertSorted(x, s[1..], key);
      InsertKeys(x, s[1..], key, key(s[0]));
      assert r == [s[0]] + rest;
    }
  }

  /** The sorted table is ordered by the key. */
  lemma {:induction false} SortSorted<T>(s: seq<T>, key: T -> SortKey)
    ensures SortedBy(Sort(s, key), key)
    decreases |s|
  {
    if |s| > 0 {
      SortSorted(s[1..], key);
      InsertSorted(s[0], Sort(s[1..], key), key);
    }
  }

  /** Sorting an already sorted table leaves it as it is. */
  lemma {:induction false} SortOfSorted<T>(s: seq<T>, key: T -> SortKey)
    requires SortedBy(s, key)
    ensures Sort(s, key) == s
    decreases |s|
  {
    if |s| > 0 {
      assert SortedBy(s[1..], key);
      SortOfSorted(s[1..], key);
      assert s == [s[0]] + s[1..];
    }
  }
}
