/** The few pieces of PHP semantics the webhook controller relies on:
    decoded JSON values (json_decode with associative arrays), truthiness
    (the `!` operator), conversion of a scalar to a string (the `.` operator
    and "{$x}" interpolation) and array access under `??` (isset semantics). */
module Php {

  datatype Option<+T> = None | Some(value: T)

  /** A value as `$response->json()` or `$request->all()` yields it.
      JSON objects become associative arrays; their keys are kept as text.
      Floating-point numbers are not part of this model. */
  datatype Value =
    | Null
    | Bool(b: bool)
    | Int(i: int)
    | Str(s: string)
    | List(items: seq<Value>)
    | Assoc(entries: map<string, Value>)

  /** PHP's `!$v`: null, false, 0, "", "0" and the empty array are falsy. */
  predicate Falsy(v: Value)
  {
    match v
    case Null => true
    case Bool(b) => !b
    case Int(i) => i == 0
    case Str(s) => s == "" || s == "0"
    case List(items) => items == []
    case Assoc(entries) => entries == map[]
  }

  // ---------------------------------------------------------------------
  // Integer to string, as PHP renders an int in `.` and in interpolation

  function DigitChar(d: nat): (c: char)
    requires d < 10
    ensures '0' <= c <= '9'
  {
    "0123456789"[d]
  }

  function DigitValue(c: char): (d: nat)
    ensures d < 10
  {
    if '0' <= c <= '9' then (c as int - '0' as int) else 0
  }

  predicate AllDigits(s: string)
  {
    forall k :: 0 <= k < |s| ==> '0' <= s[k] <= '9'
  }

  /** Decimal digits of n, most significant first, without leading zeros. */
  function NatToString(n: nat): (s: string)
    ensures |s| >= 1
    decreases n
  {
    if n < 10 then [DigitChar(n)] else NatToString(n / 10) + [DigitChar(n % 10)]
  }

  /** PHP's string form of an int: a '-' sign for negatives, then the digits. */
  function IntToString(i: int): (s: string)
    ensures |s| >= 1
  {
    if i < 0 then "-" + NatToString(-i) else NatToString(i)
  }

  /** The number a string of decimal digits denotes (reads left to right). */
  function DecimalValue(s: string): nat
    decreases |s|
  {
    if s == [] then 0 else DecimalValue(s[..|s| - 1]) * 10 + DigitValue(s[|s| - 1])
  }

  /** Reading back an optionally signed decimal integer. */
  function ParseInt(s: string): int
  {
    if |s| > 0 && s[0] == '-' then -(DecimalValue(s[1..]) as int) else DecimalValue(s)
  }

  lemma DigitRoundTrip(d: nat)
    requires d < 10
    ensures DigitValue(DigitChar(d)) == d
  {
  }

  /** NatToString produces digits only, and DecimalValue reads the number back. */
  lemma {:induction false} NatToStringRoundTrip(n: nat)
    ensures AllDigits(NatToString(n))
    ensures DecimalValue(NatToString(n)) == n
    decreases n
  {
    var d := n % 10;
    DigitRoundTrip(d);
    if n >= 10 {
      var prefix := NatToString(n / 10);
      NatToStringRoundTrip(n / 10);
      var s := prefix + [DigitChar(d)];
      assert s == NatToString(n);
      assert s[..|s| - 1] == prefix;
      assert DecimalValue(s) == DecimalValue(prefix) * 10 + DigitValue(DigitChar(d));
      assert (n / 10) * 10 + d == n;
      forall k | 0 <= k < |s| ensures '0' <= s[k] <= '9' {
        if k < |prefix| { assert s[k] == prefix[k]; }
      }
    } else {
      assert DecimalValue([DigitChar(n)][..0]) == 0;
    }
  }

  /** The string form of an int determines the int. */
  lemma IntToStringRoundTrip(i: int)
    ensures ParseInt(IntToString(i)) == i
  {
    if i < 0 {
      NatToStringRoundTrip(-i);
      assert IntToString(i)[1..] == NatToString(-i);
    } else {
      NatToStringRoundTrip(i);
      assert IntToString(i)[0] != '-';
    }
  }

  lemma IntToStringInjective(a: int, b: int)
    requires IntToString(a) == IntToString(b)
    ensures a == b
  {
    IntToStringRoundTrip(a);
    IntToStringRoundTrip(b);
  }

  // ---------------------------------------------------------------------
  // String conversion and array access

  /** The string PHP makes of a value in `.` or "{$v}". An array yields an
      "Array to string conversion" warning, which Laravel's error handler
      raises as an ErrorException: None. */
  function ToText(v: Value): (t: Option<string>)
    ensures t.None? <==> (v.List? || v.Assoc?)
  {
    match v
    case Null => Some("")
    case Bool(b) => Some(if b then "1" else "")
    case Int(i) => Some(IntToString(i))
    case Str(s) => Some(s)
    case List(_) => None
    case Assoc(_) => None
  }

  /** `$v[key]` for a non-numeric key, as seen by `??`: None when the key is
      missing, when the entry is null, or when `$v` is not an array. */
  function Offset(v: Value, key: string): (r: Option<Value>)
    ensures r.Some? ==> r.value != Null
  {
    if v.Assoc? && key in v.entries && v.entries[key] != Null then Some(v.entries[key]) else None
  }

  /** `$v[index]` as seen by `??`: an element of a list, the entry whose key
      is the index of an associative array, or one character of a string. */
  function Index(v: Value, index: nat): (r: Option<Value>)
    ensures r.Some? ==> r.value != Null
  {
    match v
    case List(items) =>
      if index < |items| && items[index] != Null then Some(items[index]) else None
    case Assoc(entries) =>
      var key := IntToString(index);
      if key in entries && entries[key] != Null then Some(entries[key]) else None
    case Str(s) =>
      if index < |s| then Some(Str([s[index]])) else None
    case _ => None
  }

  /** `$v['data'][0]['id']` as the left operand of `??`. */
  function FirstDataId(v: Value): (r: Option<Value>)
    ensures r.Some? ==> r.value != Null
  {
    match Offset(v, "data")
    case None => None
    case Some(data) =>
      match Index(data, 0)
      case None => None
      case Some(first) => Offset(first, "id")
  }
}
