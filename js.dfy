/** The few pieces of JavaScript semantics the scan service relies on:
    JSON values as `JSON.parse` produces them, truthiness and `||`,
    property reads (which throw on `null`), `String.prototype.trim`,
    `parseInt` and the decimal rendering of whole numbers. */
module Js {

  datatype Option<+T> = None | Some(value: T)

  datatype Result<+T, +E> = Ok(value: T) | Err(error: E)

  /** A value produced by `JSON.parse`. JSON numbers are kept as reals. */
  datatype Json =
    | JNull
    | JBool(b: bool)
    | JNum(n: real)
    | JStr(s: string)
    | JArr(items: seq<Json>)
    | JObj(fields: map<string, Json>)

  /** A value thrown by JavaScript code: an `Error` instance (with its
      message and stack text) or any other value. */
  datatype Thrown = ErrorThrown(message: string, stack: string) | ValueThrown

  /** Why a `TypeError` was raised. */
  datatype TypeFault =
    | ReadOfNull(key: string)      // `null.key`
    | NotAFunction(name: string)   // `v.name(...)` where `v.name` is not callable
    | NoPrimitive                  // an object that cannot be converted to a primitive

  /** The empty array `[]` and the empty object `{}` used as defaults. */
  const EmptyArray: Json := JArr([])
  const EmptyObject: Json := JObj(map[])

  /** JavaScript truthiness of a property value; `None` is `undefined`. */
  predicate Truthy(v: Option<Json>)
  {
    match v
    case None => false
    case Some(j) =>
      match j
      case JNull => false
      case JBool(b) => b
      case JNum(n) => n != 0.0
      case JStr(s) => s != ""
      case JArr(_) => true
      case JObj(_) => true
  }

  /** `v || d`: the value itself when it is truthy, otherwise the default. */
  function Or(v: Option<Json>, d: Json): (r: Json)
    ensures Truthy(v) ==> Some(r) == v
    ensures !Truthy(v) ==> r == d
    ensures Truthy(Some(d)) ==> Truthy(Some(r))
  {
    if Truthy(v) then v.value else d
  }

  /** The property read `v.key`. Reading a property of `null` throws a
      `TypeError`; on any other non-object the keys read by the service
      (`results`, `Results`, `issues`, ...) are absent. */
  function Get(v: Json, key: string): (r: Result<Option<Json>, TypeFault>)
    ensures r.Err? <==> v == JNull
    ensures r.Err? ==> r.error == ReadOfNull(key)
    ensures r.Ok? && r.value.Some? <==> v.JObj? && key in v.fields
    ensures r.Ok? && r.value.Some? ==> r.value.value == v.fields[key]
  {
    match v
    case JNull => Err(ReadOfNull(key))
    case JObj(m) => Ok(if key in m then Some(m[key]) else None)
    case _ => Ok(None)
  }

  /** Whether converting `v` to a primitive throws a `TypeError`, as
      `String(v)`, `acc + v` and `Array.prototype.join` convert it.
      `JSON.parse` creates no functions, so an object with its own
      `toString` key has no callable `toString`, and `valueOf` gives back
      the object itself: the conversion throws. Any other object converts
      through `Object.prototype.toString`, and an array through `join`,
      which converts each element (`null` becomes the empty string). */
  predicate ConversionThrows(v: Json)
  {
    match v
    case JObj(m) => "toString" in m
    case JArr(items) => exists i :: 0 <= i < |items| && ConversionThrows(items[i])
    case _ => false
  }

  /** The characters `String.prototype.trim` removes: WhiteSpace and
      LineTerminator of ECMA-262. */
  predicate IsJsSpace(c: char)
  {
    || c == '\t' || c == '\n' || c == '\U{000B}' || c == '\U{000C}' || c == '\r'
    || c == ' ' || c == '\U{00A0}' || c == '\U{1680}'
    || ('\U{2000}' <= c <= '\U{200A}')
    || c == '\U{2028}' || c == '\U{2029}' || c == '\U{202F}' || c == '\U{205F}'
    || c == '\U{3000}' || c == '\U{FEFF}'
  }

  /** A string that is empty or made only of trimmable characters, so that
      `!s.trim()` holds. */
  predicate IsBlank(s: string)
  {
    forall i :: 0 <= i < |s| ==> IsJsSpace(s[i])
  }

  /** The number of trimmable characters at the start of `s`. */
  function LeadingSpaces(s: string): (k: nat)
    ensures k <= |s|
    ensures forall i :: 0 <= i < k ==> IsJsSpace(s[i])
    ensures k < |s| ==> !IsJsSpace(s[k])
  {
    if |s| > 0 && IsJsSpace(s[0]) then 1 + LeadingSpaces(s[1..]) else 0
  }

  /** The number of trimmable characters at the end of `s`. */
  function TrailingSpaces(s: string): (k: nat)
    ensures k <= |s|
    ensures forall i :: |s| - k <= i < |s| ==> IsJsSpace(s[i])
    ensures k < |s| ==> !IsJsSpace(s[|s| - 1 - k])
  {
    if |s| > 0 && IsJsSpace(s[|s| - 1]) then 1 + TrailingSpaces(s[..|s| - 1]) else 0
  }

  /** `s.trim()`: the part of `s` between its leading and trailing
      whitespace. */
  function Trim(s: string): (r: string)
    ensures r == "" <==> IsBlank(s)
    ensures r != "" ==> !IsJsSpace(r[0]) && !IsJsSpace(r[|r| - 1])
    // `s` is blanks, then `r`, then blanks
    ensures exists a :: 0 <= a <= |s| - |r| && OccursAt(s, r, a) && IsBlank(s[..a]) && IsBlank(s[a + |r|..])
    ensures Contains(s, r)
  {
    var a := LeadingSpaces(s);
    var t := s[a..];
    TrimmedIsBlankOnlyForBlank(s);
    TrimParts(s);
    t[..|t| - TrailingSpaces(t)]
  }

  /** `s` is its leading blanks, the trimmed text, and its trailing
      blanks. */
  lemma TrimParts(s: string)
    ensures var a := LeadingSpaces(s);
            var t := s[a..];
            var r := t[..|t| - TrailingSpaces(t)];
            OccursAt(s, r, a) && IsBlank(s[..a]) && IsBlank(s[a + |r|..])
  {
    var a := LeadingSpaces(s);
    var t := s[a..];
    var k := TrailingSpaces(t);
    var r := t[..|t| - k];
    assert s[a..a + |r|] == r;
    var tail := s[a + |r|..];
    forall i | 0 <= i < |tail| ensures IsJsSpace(tail[i]) {
      assert tail[i] == t[|t| - k + i];
    }
    var head := s[..a];
    forall i | 0 <= i < |head| ensures IsJsSpace(head[i]) {
      assert head[i] == s[i];
    }
  }

  lemma TrimmedIsBlankOnlyForBlank(s: string)
    ensures var t := s[LeadingSpaces(s)..];
            t[..|t| - TrailingSpaces(t)] == "" <==> IsBlank(s)
  {
    var a := LeadingSpaces(s);
    var t := s[a..];
    if !IsBlank(s) {
      var i :| 0 <= i < |s| && !IsJsSpace(s[i]);
      assert a <= i;
      assert !IsJsSpace(t[i - a]);
    }
  }

  /** The value of `digit` in base `radix` (10 or 16), if it is a digit. */
  function DigitValue(c: char, radix: nat): Option<nat>
  {
    if '0' <= c <= '9' then
      (if (c as int) - ('0' as int) < radix then Some((c as int) - ('0' as int)) else None)
    else if radix == 16 && 'a' <= c <= 'f' then Some((c as int) - ('a' as int) + 10)
    else if radix == 16 && 'A' <= c <= 'F' then Some((c as int) - ('A' as int) + 10)
    else None
  }

  predicate IsDigitIn(c: char, radix: nat)
  {
    DigitValue(c, radix).Some?
  }

  /** The length of the longest prefix of `s` made of digits in `radix`. */
  function DigitRun(s: string, radix: nat): (k: nat)
    ensures k <= |s|
    ensures forall i :: 0 <= i < k ==> IsDigitIn(s[i], radix)
    ensures k < |s| ==> !IsDigitIn(s[k], radix)
  {
    if |s| > 0 && IsDigitIn(s[0], radix) then 1 + DigitRun(s[1..], radix) else 0
  }

  /** The number written by the digit string `d` in base `radix`, most
      significant digit first. */
  function DigitsValue(d: string, radix: nat): nat
    requires forall i :: 0 <= i < |d| ==> IsDigitIn(d[i], radix)
  {
    if d == [] then 0
    else
      assert IsDigitIn(d[|d| - 1], radix);
      DigitsValue(d[..|d| - 1], radix) * radix + DigitValue(d[|d| - 1], radix).value
  }

  /** The decimal digit for `n < 10`. */
  function DigitChar(n: nat): (c: char)
    requires n < 10
    ensures DigitValue(c, 10) == Some(n)
  {
    (('0' as int) + n) as char
  }

  /** `String(n)` for a whole number `n`: its decimal digits, without
      leading zeros. */
  function NatToString(n: nat): (s: string)
    ensures |s| > 0
    ensures forall i :: 0 <= i < |s| ==> IsDigitIn(s[i], 10)
    ensures |s| > 1 ==> s[0] != '0'
  {
    if n < 10 then [DigitChar(n)] else NatToString(n / 10) + [DigitChar(n % 10)]
  }

  /** Reading back the decimal rendering of `n` gives `n`. */
  lemma {:induction false} NatToStringValue(n: nat)
    ensures DigitsValue(NatToString(n), 10) == n
  {
    var s := NatToString(n);
    if n >= 10 {
      NatToStringValue(n / 10);
      assert s[..|s| - 1] == NatToString(n / 10);
    }
  }

  /** The sign and the unsigned rest of a string, as `parseInt` reads them
      after skipping leading whitespace. */
  function SplitSign(t: string): (r: (bool, string))
    ensures |r.1| <= |t|
  {
    if |t| > 0 && t[0] == '-' then (true, t[1..])
    else if |t| > 0 && t[0] == '+' then (false, t[1..])
    else (false, t)
  }

  predicate HasHexPrefix(u: string)
  {
    |u| >= 2 && u[0] == '0' && (u[1] == 'x' || u[1] == 'X')
  }

  /** `parseInt(s)` with no radix argument: skip leading whitespace, read an
      optional sign, switch to base 16 after `0x`/`0X`, then read the
      longest run of digits. `None` stands for `NaN`, returned when no digit
      can be read. */
  function ParseInt(s: string): (r: Option<int>)
    // `NaN` exactly when, after whitespace, sign and an optional `0x`, no digit follows
    ensures var u := SplitSign(s[LeadingSpaces(s)..]).1;
            var body := if HasHexPrefix(u) then u[2..] else u;
            r.None? <==> (body == "" || !IsDigitIn(body[0], if HasHexPrefix(u) then 16 else 10))
    // a negative number only after a minus sign
    ensures r.Some? && r.value < 0 ==> SplitSign(s[LeadingSpaces(s)..]).0
    ensures r.Some? && !SplitSign(s[LeadingSpaces(s)..]).0 ==> r.value >= 0
  {
    var (negative, u) := SplitSign(s[LeadingSpaces(s)..]);
    var radix := if HasHexPrefix(u) then 16 else 10;
    var body := if HasHexPrefix(u) then u[2..] else u;
    var k := DigitRun(body, radix);
    if k == 0 then None
    else
      var magnitude := DigitsValue(body[..k], radix);
      Some(if negative then -(magnitude as int) else magnitude as int)
  }

  /** `parseInt` reads back every decimal rendering of a whole number, and
      what follows the digits does not matter: `parseInt("12abc")` is 12.
      Only after a lone `0` does an `x` switch to base 16. */
  lemma ParseIntOfDecimal(n: nat, rest: string)
    requires rest == "" || (!IsDigitIn(rest[0], 10) && (n == 0 ==> rest[0] != 'x' && rest[0] != 'X'))
    ensures ParseInt(NatToString(n) + rest) == Some(n)
  {
    var d := NatToString(n);
    var s := d + rest;
    assert !IsJsSpace(s[0]);
    assert s[LeadingSpaces(s)..] == s;
    assert !HasHexPrefix(s) by {
      if n >= 10 { assert s[0] == d[0]; }
      else if n != 0 { assert s[0] == DigitChar(n); }
      else if |s| >= 2 { assert s[1] == rest[0]; }
    }
    assert s[..|d|] == d;
    DigitRunOfPrefix(d, rest, 10);
    NatToStringValue(n);
  }

  /** The digit run of a digit string followed by a non-digit is that
      digit string. */
  lemma {:induction false} DigitRunOfPrefix(d: string, rest: string, radix: nat)
    requires forall i :: 0 <= i < |d| ==> IsDigitIn(d[i], radix)
    requires rest == "" || !IsDigitIn(rest[0], radix)
    ensures DigitRun(d + rest, radix) == |d|
  {
    if d != [] {
      assert (d + rest)[1..] == d[1..] + rest;
      DigitRunOfPrefix(d[1..], rest, radix);
    }
  }

  /** The id parameter "12abc" looks up scan 12. */
  lemma ParseIntLeadingDigits()
    ensures ParseInt("12abc") == Some(12)
  {
    ParseIntOfDecimal(12, "abc");
    assert NatToString(12) == "12";
    assert NatToString(12) + "abc" == "12abc";
  }

  /** `a` occurs in `s` starting at index `i`. */
  predicate OccursAt(s: string, a: string, i: int)
  {
    0 <= i <= |s| - |a| && s[i..i + |a|] == a
  }

  /** `s.includes(a)`: `a` occurs in `s` as a contiguous substring. */
  predicate Contains(s: string, a: string)
  {
    exists i :: 0 <= i <= |s| - |a| && OccursAt(s, a, i)
  }

  /** A string occurs where it is spliced in. */
  lemma OccursInMiddle(a: string, m: string, b: string)
    ensures OccursAt(a + m + b, m, |a|) && Contains(a + m + b, m)
  {
    assert (a + m + b)[|a|..|a| + |m|] == m;
    assert OccursAt(a + m + b, m, |a|);
  }

  /** Putting text in front of a string keeps what it contains. */
  lemma ContainsAfterPrefix(pre: string, s: string, a: string)
    requires Contains(s, a)
    ensures Contains(pre + s, a)
  {
    var i :| 0 <= i <= |s| - |a| && OccursAt(s, a, i);
    assert (pre + s)[|pre| + i..|pre| + i + |a|] == s[i..i + |a|];
    assert OccursAt(pre + s, a, |pre| + i);
  }
}
