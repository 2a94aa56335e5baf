/**
 * Python values as they arrive in a parsed JSON request body, and the Python
 * built-ins the feed code applies to them: `in` and `[]` on a dict,
 * `dict.get`, truthiness (`if v:`), `str()` and `for … in`.
 */
module PyValues {
  import opened Wrappers

  /** A value produced by JSON parsing. A JSON object becomes a Python dict,
      whose entries keep their insertion order. */
  datatype Json =
    | JNull
    | JBool(b: bool)
    | JInt(i: int)
    | JStr(s: string)
    | JList(items: seq<Json>)
    | JDict(entries: seq<(string, Json)>)

  /** The entries of a Python dict, in insertion order. */
  type Dict = seq<(string, Json)>

  /** The exceptions a handler can meet while reading its request. */
  datatype PyError =
    | KeyError(key: string)   // d[key] on a dict without that key
    | NotSubscriptable        // TypeError: v[key] on a value that is not a dict
    | NotIterable             // TypeError: `for x in v` on None, a bool or an int
    | NoItems                 // AttributeError: v.items() on a value that is not a dict

  /** `key in d` */
  predicate HasKey(d: Dict, key: string) {
    exists i :: 0 <= i < |d| && d[i].0 == key
  }

  /** `d[key]` when present: the value stored under `key`. */
  function Lookup(d: Dict, key: string): (r: Option<Json>)
    ensures r.Some? <==> HasKey(d, key)
    ensures r.Some? ==> (key, r.value) in d
  {
    if d == [] then None
    else if d[0].0 == key then Some(d[0].1)
    else
      assert forall i :: 1 <= i < |d| ==> d[i] == d[1..][i - 1];
      Lookup(d[1..], key)
  }

  /** The first entry with a key is the one `d[key]` finds. */
  lemma {:induction false} LookupAt(d: Dict, key: string, i: nat)
    requires i < |d| && d[i].0 == key
    requires forall j :: 0 <= j < i ==> d[j].0 != key
    ensures Lookup(d, key) == Some(d[i].1)
  {
    if i > 0 {
      LookupAt(d[1..], key, i - 1);
    }
  }

  /** `d[key]` for a key the dict holds. */
  function Item(d: Dict, key: string): (v: Json)
    requires HasKey(d, key)
    ensures (key, v) in d
  {
    Lookup(d, key).value
  }

  /** `d.get(key, default)` */
  function Get(d: Dict, key: string, default: Json): (r: Json)
    ensures !HasKey(d, key) ==> r == default
    ensures HasKey(d, key) ==> (key, r) in d
  {
    match Lookup(d, key)
    case Some(v) => v
    case None => default
  }

  /** `bool(v)`: what `if v:` and `not v` test. */
  predicate Truthy(v: Json) {
    match v
    case JNull => false
    case JBool(b) => b
    case JInt(i) => i != 0
    case JStr(s) => s != ""
    case JList(items) => items != []
    case JDict(entries) => entries != []
  }

  /** Python's falsy values, as JSON can produce them: None, False, 0, "", [] and {}. */
  lemma FalsyValues(v: Json)
    ensures !Truthy(v) <==>
      v == JNull || v == JBool(false) || v == JInt(0) || v == JStr("") || v == JList([]) || v == JDict([])
  {
  }

  // ---- str() of an int: canonical decimal text ----

  predicate IsDigit(c: char) { '0' <= c <= '9' }

  predicate AllDigits(s: string) { forall k :: 0 <= k < |s| ==> IsDigit(s[k]) }

  function DigitChar(d: nat): (c: char)
    requires d < 10
    ensures IsDigit(c)
  {
    (('0' as int) + d) as char
  }

  function DigitValue(c: char): (d: nat)
    requires IsDigit(c)
    ensures d < 10
  {
    (c as int) - ('0' as int)
  }

  /** The decimal digits of `n`, most significant first. */
  function NatDigits(n: nat): (s: string)
    ensures |s| >= 1 && AllDigits(s)
    ensures s[0] == '0' ==> n == 0
  {
    if n < 10 then [DigitChar(n)] else NatDigits(n / 10) + [DigitChar(n % 10)]
  }

  /** `str(i)` for a Python int. */
  function Decimal(i: int): (s: string)
    ensures s != ""
  {
    if i < 0 then "-" + NatDigits(-i) else NatDigits(i)
  }

  /** Canonical decimal text: an optional minus sign, then digits with no
      leading zero; "0" is written alone and "-0" never. */
  predicate IsCanonicalDecimal(s: string) {
    if |s| > 0 && s[0] == '-' then
      |s| > 1 && AllDigits(s[1..]) && s[1] != '0'
    else
      |s| > 0 && AllDigits(s) && (s[0] == '0' ==> |s| == 1)
  }

  /** The number a run of digits denotes, read left to right. */
  function DigitsValue(s: string): nat
    requires AllDigits(s)
  {
    if s == [] then 0 else DigitsValue(s[..|s| - 1]) * 10 + DigitValue(s[|s| - 1])
  }

  /** `int(s)` for canonical decimal text. */
  function ParseInt(s: string): int
    requires IsCanonicalDecimal(s)
  {
    if s[0] == '-' then -(DigitsValue(s[1..]) as int) else DigitsValue(s)
  }

  lemma {:induction false} NatDigitsValue(n: nat)
    ensures DigitsValue(NatDigits(n)) == n
  {
    if n >= 10 {
      NatDigitsValue(n / 10);
      var s := NatDigits(n);
      assert s[..|s| - 1] == NatDigits(n / 10);
    }
  }

  /** `str` on an int writes canonical decimal text that `int` reads back. */
  lemma DecimalRoundTrip(i: int)
    ensures IsCanonicalDecimal(Decimal(i))
    ensures ParseInt(Decimal(i)) == i
  {
    if i < 0 {
      NatDigitsValue(-i);
      assert Decimal(i)[1..] == NatDigits(-i);
    } else {
      NatDigitsValue(i);
    }
  }

  // ---- str() and repr() of other values ----

  /** `repr(v)`. Strings are quoted with single quotes; Python's choice of
      double quotes and its escapes are not modelled. */
  function Repr(v: Json): (r: string)
    ensures r != ""
    ensures v == JNull ==> r == "None"
    ensures v == JBool(true) ==> r == "True"
    ensures v == JBool(false) ==> r == "False"
    ensures v.JInt? ==> IsCanonicalDecimal(r) && ParseInt(r) == v.i
    decreases v, 1
  {
    match v
    case JNull => "None"
    case JBool(b) => if b then "True" else "False"
    case JInt(i) => DecimalRoundTrip(i); Decimal(i)
    case JStr(s) => "'" + s + "'"
    case JList(items) => "[" + ReprItems(items) + "]"
    case JDict(entries) => "{" + ReprEntries(entries) + "}"
  }

  function ReprItems(items: seq<Json>): string
    decreases items, 0
  {
    if items == [] then ""
    else if |items| == 1 then Repr(items[0])
    else Repr(items[0]) + ", " + ReprItems(items[1..])
  }

  function ReprEntries(entries: seq<(string, Json)>): string
    decreases entries, 0
  {
    if entries == [] then ""
    else
      var entry := ReprEntry(entries[0]);
      if |entries| == 1 then entry else entry + ", " + ReprEntries(entries[1..])
  }

  function ReprEntry(entry: (string, Json)): string
    decreases entry, 0
  {
    "'" + entry.0 + "': " + Repr(entry.1)
  }

  /** `str(v)` */
  function PyStr(v: Json): (s: string)
    ensures v.JStr? ==> s == v.s
    ensures v.JInt? ==> IsCanonicalDecimal(s) && ParseInt(s) == v.i
    ensures v == JNull ==> s == "None"
  {
    match v
    case JStr(s) => s
    case _ => Repr(v)
  }

  /** `str(v)` is empty exactly for the empty string. */
  lemma PyStrEmpty(v: Json)
    ensures PyStr(v) == "" <==> v == JStr("")
  {
  }

  // ---- iteration ----

  /** The values `for x in v` visits, in order, or None when `v` is not
      iterable: a list gives its items, a string its characters, a dict its keys. */
  function PyIter(v: Json): (r: Option<seq<Json>>)
    ensures r.None? <==> v.JNull? || v.JBool? || v.JInt?
    ensures v.JList? ==> r == Some(v.items)
    ensures v.JStr? ==> r.Some? && |r.value| == |v.s|
    ensures v.JStr? ==> forall k :: 0 <= k < |v.s| ==> r.value[k] == JStr([v.s[k]])
    ensures v.JDict? ==> r.Some? && |r.value| == |v.entries|
    ensures v.JDict? ==> forall k :: 0 <= k < |v.entries| ==> r.value[k] == JStr(v.entries[k].0)
  {
    match v
    case JList(items) => Some(items)
    case JStr(s) => Some(seq(|s|, k requires 0 <= k < |s| => JStr([s[k]])))
    case JDict(entries) => Some(seq(|entries|, k requires 0 <= k < |entries| => JStr(entries[k].0)))
    case _ => None
  }
}
