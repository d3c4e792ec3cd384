/**
 * The JavaScript values that reach the status updater from JSON bodies,
 * request headers, environment variables and database rows, with the three
 * pieces of JavaScript semantics the code relies on: truthiness, strict
 * equality (`===`, which on these values is Dafny's `==`) and conversion to a
 * string inside a template literal (`${v}`).
 */
module Js {
  import opened Wrappers

  /** A JavaScript primitive. Numbers are integral here. */
  datatype Val = Undefined | Null | Bool(b: bool) | Num(n: int) | Str(s: string)

  /** JavaScript truthiness: `undefined`, `null`, `false`, `0` and `''` are falsy. */
  predicate Truthy(v: Val) {
    match v
    case Undefined => false
    case Null => false
    case Bool(b) => b
    case Num(n) => n != 0
    case Str(s) => s != ""
  }

  /** The value of `v || fallback`. */
  function Or(v: Val, fallback: Val): (r: Val)
    ensures Truthy(v) ==> r == v
    ensures !Truthy(v) ==> r == fallback
  {
    if Truthy(v) then v else fallback
  }

  predicate IsDigit(c: char) {
    '0' <= c <= '9'
  }

  function DigitChar(d: nat): (c: char)
    requires d < 10
    ensures IsDigit(c) && DigitValue(c) == d
  {
    ('0' as int + d) as char
  }

  function DigitValue(c: char): (d: nat)
    requires IsDigit(c)
    ensures d < 10
  {
    c as int - '0' as int
  }

  /** Decimal notation of a natural number, most significant digit first. */
  function NatToString(n: nat): (s: string)
    ensures |s| >= 1
    ensures forall i :: 0 <= i < |s| ==> IsDigit(s[i])
    decreases n
  {
    if n < 10 then [DigitChar(n)] else NatToString(n / 10) + [DigitChar(n % 10)]
  }

  /** `String(n)` for an integral number. */
  function IntToString(n: int): (s: string)
    ensures |s| >= 1
  {
    if n < 0 then "-" + NatToString(-n) else NatToString(n)
  }

  /** Reads a non-empty string of decimal digits; anything else is `None`. */
  function ParseNat(s: string): (r: Option<nat>)
    decreases |s|
  {
    if |s| == 0 || !IsDigit(s[|s| - 1]) then None
    else if |s| == 1 then Some(DigitValue(s[0]))
    else match ParseNat(s[..|s| - 1])
      case None => None
      case Some(m) => Some(m * 10 + DigitValue(s[|s| - 1]))
  }

  /** Reads an optionally negative decimal integer. */
  function ParseInt(s: string): (r: Option<int>)
  {
    if |s| > 0 && s[0] == '-' then
      match ParseNat(s[1..])
      case None => None
      case Some(m) => Some(-(m as int))
    else
      match ParseNat(s)
      case None => None
      case Some(m) => var k: int := m; Some(k)
  }

  lemma {:induction false} ParseNatToString(n: nat)
    ensures ParseNat(NatToString(n)) == Some(n)
    decreases n
  {
    if n >= 10 {
      var s := NatToString(n);
      assert s[..|s| - 1] == NatToString(n / 10);
      assert s[|s| - 1] == DigitChar(n % 10);
      ParseNatToString(n / 10);
    }
  }

  /** Decimal notation loses nothing: reading back `String(n)` gives `n`. */
  lemma ParseIntToString(n: int)
    ensures ParseInt(IntToString(n)) == Some(n)
  {
    var s := IntToString(n);
    if n < 0 {
      assert s[0] == '-' && s[1..] == NatToString(-n);
      ParseNatToString(-n);
    } else {
      assert IsDigit(s[0]);
      ParseNatToString(n);
    }
  }

  /** `String(v)`, which is what `${v}` inserts into a template literal. */
  function ToString(v: Val): (s: string)
    ensures v.Str? ==> s == v.s
  {
    match v
    case Undefined => "undefined"
    case Null => "null"
    case Bool(b) => if b then "true" else "false"
    case Num(n) => IntToString(n)
    case Str(s) => s
  }

  /** The header value `Bearer ${credential}`. */
  function BearerHeader(credential: Val): (h: string)
    ensures |h| >= 7 && h[..7] == "Bearer "
    ensures credential.Str? ==> h == "Bearer " + credential.s
  {
    "Bearer " + ToString(credential)
  }

  /** `t` occurs in `s` as a contiguous substring. */
  ghost predicate Contains(s: string, t: string) {
    exists i :: OccursAt(s, t, i)
  }

  /** `t` occurs in `s` starting at position `i`. */
  predicate OccursAt(s: string, t: string, i: int) {
    0 <= i <= |s| - |t| && s[i..i + |t|] == t
  }
}
