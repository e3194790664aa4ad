/**
 * The part of PHP's value model and standard library that the course catalog
 * relies on: values as json_decode($text, TRUE) produces them, ordered arrays
 * with int or string keys, the (string) cast, string truthiness, array_filter,
 * implode, strpos and json_decode's error convention.
 */
module Php {

  datatype Option<T> = None | Some(value: T)

  /** A PHP array key. */
  datatype Key = IntKey(i: int) | StrKey(s: string)

  /** One key => value pair of a PHP array. */
  datatype Entry = Entry(key: Key, val: Value)

  /**
   * A PHP value. An array is its entries in insertion order. Complex stands
   * for any other non-scalar (an object or a resource). Floats are not
   * modelled.
   */
  datatype Value =
    | Null
    | Bool(b: bool)
    | Int(i: int)
    | Str(s: string)
    | Arr(entries: seq<Entry>)
    | Complex

  /** is_scalar($v) || $v === NULL */
  predicate IsScalarOrNull(v: Value) {
    v.Null? || v.Bool? || v.Int? || v.Str?
  }

  // ---------------------------------------------------------------------
  // Decimal rendering of integers, as PHP's (string) cast and the `.`
  // operator produce it.

  predicate IsDigit(c: char) {
    '0' <= c <= '9'
  }

  predicate IsDigits(s: string) {
    forall k :: 0 <= k < |s| ==> IsDigit(s[k])
  }

  function DigitChar(d: nat): (c: char)
    requires d < 10
    ensures IsDigit(c) && (c == '0' <==> d == 0)
  {
    ('0' as int + d) as char
  }

  function DigitValue(c: char): (d: nat)
    requires IsDigit(c)
    ensures d < 10 && DigitChar(d) == c
  {
    c as int - '0' as int
  }

  /** The shortest decimal digit string of n. */
  function NatToString(n: nat): (s: string)
    ensures |s| >= 1 && IsDigits(s)
    ensures n >= 10 ==> |s| >= 2
    ensures n < 10 ==> s == [DigitChar(n)]
  {
    if n < 10 then [DigitChar(n)] else NatToString(n / 10) + [DigitChar(n % 10)]
  }

  /** (string) $i for an integer $i. */
  function IntToString(i: int): string {
    if i < 0 then "-" + NatToString(-i) else NatToString(i)
  }

  /** The number a digit string denotes (the empty string denotes 0). */
  function DigitsValue(s: string): nat
    requires IsDigits(s)
  {
    if s == [] then 0 else DigitsValue(s[..|s| - 1]) * 10 + DigitValue(s[|s| - 1])
  }

  /** Reads back an optionally negative decimal integer. */
  function ParseInt(s: string): Option<int> {
    if |s| >= 2 && s[0] == '-' && IsDigits(s[1..]) then Some(-(DigitsValue(s[1..]) as int))
    else if |s| >= 1 && IsDigits(s) then Some(DigitsValue(s))
    else None
  }

  lemma {:induction false} NatToStringRoundTrip(n: nat)
    ensures DigitsValue(NatToString(n)) == n
  {
    if n >= 10 {
      var s := NatToString(n);
      assert s[..|s| - 1] == NatToString(n / 10);
      NatToStringRoundTrip(n / 10);
    }
  }

  /** A minus sign followed by digits reads back as the negated digit value. */
  lemma ParseNegative(d: string)
    requires |d| >= 1 && IsDigits(d)
    ensures ParseInt("-" + d) == Some(-(DigitsValue(d) as int))
  {
    assert ("-" + d)[0] == '-' && ("-" + d)[1..] == d;
  }

  /** A non-empty digit string reads back as its digit value. */
  lemma ParseDigits(d: string)
    requires |d| >= 1 && IsDigits(d)
    ensures ParseInt(d) == Some(DigitsValue(d) as int)
  {
    assert IsDigit(d[0]);
  }

  lemma IntToStringRoundTrip(i: int)
    ensures ParseInt(IntToString(i)) == Some(i)
  {
    if i < 0 {
      var d := NatToString(-i);
      assert IntToString(i) == "-" + d;
      ParseNegative(d);
      NatToStringRoundTrip(-i);
      assert DigitsValue(d) == -i;
    } else {
      var d := NatToString(i);
      assert IntToString(i) == d;
      ParseDigits(d);
      NatToStringRoundTrip(i);
      assert DigitsValue(d) == i;
    }
  }

  /** Distinct integers render as distinct strings. */
  lemma IntToStringInjective(a: int, b: int)
    requires IntToString(a) == IntToString(b)
    ensures a == b
  {
    IntToStringRoundTrip(a);
    IntToStringRoundTrip(b);
  }

  /** An integer's string is never empty, and it is "0" exactly for zero. */
  lemma IntToStringTruthiness(i: int)
    ensures IntToString(i) != ""
    ensures IntToString(i) == "0" <==> i == 0
  {
    if i < 0 {
      assert IntToString(i)[0] == '-';
    }
  }

  // ---------------------------------------------------------------------
  // Casts and truthiness.

  /** (string) $v for a scalar or NULL. */
  function ToString(v: Value): string
    requires IsScalarOrNull(v)
  {
    match v
    case Null => ""
    case Bool(b) => if b then "1" else ""
    case Int(i) => IntToString(i)
    case Str(s) => s
  }

  /** (bool) $s for a string: only "" and "0" are falsy. */
  predicate Truthy(s: string) {
    s != "" && s != "0"
  }

  /** array_filter($strings) without a callback, values in order. */
  function ArrayFilter(ss: seq<string>): (r: seq<string>)
    ensures forall k :: 0 <= k < |r| ==> Truthy(r[k])
    ensures |r| <= |ss|
  {
    if ss == [] then []
    else if Truthy(ss[0]) then [ss[0]] + ArrayFilter(ss[1..])
    else ArrayFilter(ss[1..])
  }

  /** array_filter keeps each truthy string as often as it occurs, and no falsy one. */
  lemma {:induction false} ArrayFilterCounts(ss: seq<string>)
    ensures forall s :: multiset(ArrayFilter(ss))[s] == if Truthy(s) then multiset(ss)[s] else 0
  {
    if ss != [] {
      var rest := ss[1..];
      ArrayFilterCounts(rest);
      assert ss == [ss[0]] + rest;
      assert multiset(ss) == multiset{ss[0]} + multiset(rest);
      if Truthy(ss[0]) {
        assert multiset(ArrayFilter(ss)) == multiset{ss[0]} + multiset(ArrayFilter(rest));
      } else {
        assert ArrayFilter(ss) == ArrayFilter(rest);
      }
    }
  }

  /**
   * array_filter keeps exactly the truthy strings: every truthy input
   * survives, each as often as it occurs, and nothing else is added.
   */
  lemma ArrayFilterKeepsExactlyTruthy(ss: seq<string>)
    ensures forall k :: 0 <= k < |ss| && Truthy(ss[k]) ==> ss[k] in ArrayFilter(ss)
    ensures multiset(ArrayFilter(ss)) <= multiset(ss)
    ensures forall s :: multiset(ArrayFilter(ss))[s] == if Truthy(s) then multiset(ss)[s] else 0
  {
    ArrayFilterCounts(ss);
    forall k | 0 <= k < |ss| && Truthy(ss[k])
      ensures ss[k] in ArrayFilter(ss)
    {
      assert ss[k] in multiset(ss);
    }
  }

  /** implode($sep, $pieces). */
  function Implode(sep: string, ss: seq<string>): string {
    if |ss| == 0 then ""
    else if |ss| == 1 then ss[0]
    else ss[0] + sep + Implode(sep, ss[1..])
  }

  lemma {:induction false} ArrayFilterAppend(a: seq<string>, b: seq<string>)
    ensures ArrayFilter(a + b) == ArrayFilter(a) + ArrayFilter(b)
  {
    if a != [] {
      assert (a + b)[0] == a[0] && (a + b)[1..] == a[1..] + b;
      ArrayFilterAppend(a[1..], b);
    } else {
      assert a + b == b;
    }
  }

  /** Filtering keeps exactly the truthy strings. */
  lemma {:induction false} ArrayFilterKeepsTruthy(ss: seq<string>)
    requires forall k :: 0 <= k < |ss| ==> Truthy(ss[k])
    ensures ArrayFilter(ss) == ss
  {
    if ss != [] {
      ArrayFilterKeepsTruthy(ss[1..]);
    }
  }

  lemma {:induction false} ImplodeAppend(sep: string, a: seq<string>, b: seq<string>)
    requires a != [] && b != []
    ensures Implode(sep, a + b) == Implode(sep, a) + sep + Implode(sep, b)
  {
    if |a| > 1 {
      assert (a + b)[1..] == a[1..] + b;
      ImplodeAppend(sep, a[1..], b);
    } else {
      assert (a + b)[1..] == b;
    }
  }

  // ---------------------------------------------------------------------
  // strpos

  /** `needle` occurs in `haystack` starting at position k. */
  predicate OccursAt(haystack: string, needle: string, k: nat) {
    k + |needle| <= |haystack| && haystack[k..k + |needle|] == needle
  }

  /** The first position at or after `from` where `needle` occurs in `haystack`. */
  function StrposFrom(haystack: string, needle: string, from: nat): (r: Option<nat>)
    requires from <= |haystack|
    ensures r.Some? ==> from <= r.value && OccursAt(haystack, needle, r.value)
    ensures forall k: nat :: from <= k && (r.None? || k < r.value) ==> !OccursAt(haystack, needle, k)
    decreases |haystack| - from
  {
    if from + |needle| > |haystack| then None
    else if OccursAt(haystack, needle, from) then Some(from)
    else StrposFrom(haystack, needle, from + 1)
  }

  /** strpos($haystack, $needle), with NULL-for-FALSE as None. */
  function Strpos(haystack: string, needle: string): Option<nat> {
    StrposFrom(haystack, needle, 0)
  }

  /** strpos(...) === 0 is the prefix test. */
  lemma StrposZeroIsPrefix(haystack: string, needle: string)
    ensures Strpos(haystack, needle) == Some(0) <==> needle <= haystack
  {
    if needle <= haystack {
      assert haystack[0..|needle|] == needle;
    }
  }

  // ---------------------------------------------------------------------
  // Array access.

  function Keys(es: seq<Entry>): (ks: seq<Key>)
    ensures |ks| == |es|
    ensures forall k :: 0 <= k < |es| ==> ks[k] == es[k].key
  {
    if es == [] then [] else [es[0].key] + Keys(es[1..])
  }

  /** $array[$key], or None when the key is absent. */
  function Lookup(es: seq<Entry>, key: Key): Option<Value> {
    if es == [] then None
    else if es[0].key == key then Some(es[0].val)
    else Lookup(es[1..], key)
  }

  /** $array[$key] = $v: overwrites in place when the key exists, appends otherwise. */
  function Assign(es: seq<Entry>, key: Key, v: Value): seq<Entry> {
    if es == [] then [Entry(key, v)]
    else if es[0].key == key then [Entry(key, v)] + es[1..]
    else [es[0]] + Assign(es[1..], key, v)
  }

  /** Assigning reads back what was written and leaves every other key alone. */
  lemma {:induction false} AssignLookup(es: seq<Entry>, key: Key, v: Value, other: Key)
    ensures Lookup(Assign(es, key, v), other) == if other == key then Some(v) else Lookup(es, other)
  {
    if es != [] && es[0].key != key {
      AssignLookup(es[1..], key, v, other);
    }
  }

  /** Assigning to an existing key keeps the key order and the length. */
  lemma {:induction false} AssignKeepsKeys(es: seq<Entry>, key: Key, v: Value)
    requires Lookup(es, key).Some?
    ensures Keys(Assign(es, key, v)) == Keys(es)
  {
    if es[0].key != key {
      AssignKeepsKeys(es[1..], key, v);
    }
  }

  /** isset($value[$key]) for a string key: an array holding a non-NULL entry there. */
  predicate Isset(value: Value, key: string) {
    value.Arr? && Lookup(value.entries, StrKey(key)).Some? &&
    !Lookup(value.entries, StrKey(key)).value.Null?
  }

  /** A list [v0, v1, ...] with keys 0, 1, ... */
  function List(vs: seq<Value>): (r: Value)
    ensures r.Arr? && |r.entries| == |vs|
    ensures forall k :: 0 <= k < |vs| ==> r.entries[k] == Entry(IntKey(k), vs[k])
  {
    Arr(seq(|vs|, k requires 0 <= k < |vs| => Entry(IntKey(k), vs[k])))
  }

  // ---------------------------------------------------------------------
  // json_decode

  /** What the JSON decoder makes of a text: a value, or a JSON error. */
  datatype JsonResult = Decoded(value: Value) | Malformed

  /** json_decode($text, TRUE): the decoded value, or NULL after a JSON error. */
  function JsonDecode(r: JsonResult): Value {
    match r
    case Decoded(v) => v
    case Malformed => Null
  }
}
