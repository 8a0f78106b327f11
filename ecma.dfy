/**
  The pieces of the ECMAScript built-in library that the application's decision
  logic relies on: truthiness (ToBoolean), `toLowerCase`, `trim`, `includes`,
  `startsWith`/`endsWith`, `Array.prototype.join`, the global `parseInt`
  (section 19.2.5 of ECMA-262, "parseInt ( string, radix )") and ToString of
  JSON values.  `Number::toString` is not modelled and is passed in wherever a
  number is printed.
*/
module Ecma {
  import opened Wrappers

  // ---------------------------------------------------------------------------
  // JSON values as the server receives them from `JSON.parse`
  // ---------------------------------------------------------------------------

  datatype Json =
    | JNull
    | JBool(b: bool)
    | JNum(x: real)
    | JStr(s: string)
    | JArr(items: seq<Json>)
    | JObj(fields: map<string, Json>)

  /** ToBoolean. JSON has no NaN, so a number is falsy exactly when it is zero. */
  predicate Truthy(v: Json) {
    match v
    case JNull => false
    case JBool(b) => b
    case JNum(x) => x != 0.0
    case JStr(s) => s != ""
    case JArr(_) => true
    case JObj(_) => true
  }

  /** Truthiness of a property read, where an absent property is `undefined`. */
  predicate Present(v: Option<Json>) {
    v.Some? && Truthy(v.value)
  }

  /** `v.k` on a non-null value: the field of an object, `undefined` otherwise. */
  function Get(v: Json, k: string): (r: Option<Json>)
    ensures r.Some? <==> v.JObj? && k in v.fields
    ensures r.Some? ==> r.value == v.fields[k]
  {
    if v.JObj? && k in v.fields then Some(v.fields[k]) else None
  }

  /** ToString of a JSON value; `showNum` is `Number::toString`. */
  function ToJsString(v: Json, showNum: real -> string): string
    decreases v
  {
    match v
    case JNull => "null"
    case JBool(b) => if b then "true" else "false"
    case JNum(x) => showNum(x)
    case JStr(s) => s
    case JArr(items) =>
      // Array.prototype.toString joins with ',' and prints null as the empty string
      Join(seq(|items|, i requires 0 <= i < |items| =>
             if items[i].JNull? then "" else ToJsString(items[i], showNum)), ",")
    case JObj(_) => "[object Object]"
  }

  /** A property interpolated into a template literal: `${o.k}`. */
  function ShowProp(v: Option<Json>, showNum: real -> string): string {
    match v
    case None => "undefined"
    case Some(j) => ToJsString(j, showNum)
  }

  // ---------------------------------------------------------------------------
  // Strings
  // ---------------------------------------------------------------------------

  /** toLowerCase restricted to the ASCII letters A-Z. */
  function LowerChar(c: char): char {
    if 'A' <= c <= 'Z' then (c as int + 32) as char else c
  }

  function ToLower(s: string): (r: string)
    ensures |r| == |s|
    ensures forall i :: 0 <= i < |s| ==> r[i] == LowerChar(s[i])
  {
    seq(|s|, i requires 0 <= i < |s| => LowerChar(s[i]))
  }

  predicate NoUpper(s: string) {
    forall i :: 0 <= i < |s| ==> !('A' <= s[i] <= 'Z')
  }

  /** Lower-casing leaves nothing to lower and distributes over concatenation. */
  lemma ToLowerFacts(a: string, b: string)
    ensures NoUpper(ToLower(a))
    ensures ToLower(ToLower(a)) == ToLower(a)
    ensures ToLower(a + b) == ToLower(a) + ToLower(b)
    ensures NoUpper(a) ==> ToLower(a) == a
  {
    assert ToLower(a + b) == ToLower(a) + ToLower(b) by {
      forall i | 0 <= i < |a| + |b|
        ensures ToLower(a + b)[i] == (ToLower(a) + ToLower(b))[i]
      {
        if i < |a| { assert (a + b)[i] == a[i]; } else { assert (a + b)[i] == b[i - |a|]; }
      }
    }
  }

  /** `pat` occurs in `s` starting at index `i`. */
  predicate OccursAt(s: string, pat: string, i: int) {
    0 <= i <= |s| - |pat| && s[i..i + |pat|] == pat
  }

  /** `s.includes(pat)`. */
  predicate Includes(s: string, pat: string) {
    exists i | 0 <= i <= |s| - |pat| :: OccursAt(s, pat, i)
  }

  /** A pattern holding a character that the string lacks does not occur in it. */
  lemma MissingCharExcludes(s: string, pat: string, c: char)
    requires c in pat && c !in s
    ensures !Includes(s, pat)
  {
  }

  /** A two-character pattern whose first character occurs only once, and is
      followed there by another character, does not occur. */
  lemma LoneCharNotFollowedBy(a: string, b: string, p: string)
    requires |p| == 2 && p[0] !in a && p[0] !in b && (b == [] || b[0] != p[1])
    ensures !Includes(a + [p[0]] + b, p)
  {
  }

  /** `s.startsWith(p)`. */
  predicate StartsWith(s: string, p: string) {
    |p| <= |s| && s[..|p|] == p
  }

  /** `s.endsWith(p)`. */
  predicate EndsWith(s: string, p: string) {
    |p| <= |s| && s[|s| - |p|..] == p
  }

  /** A pattern without the separator character occurs in `a + sep + b`
      exactly when it occurs in `a` or in `b`. */
  lemma IncludesAroundSeparator(a: string, sep: char, b: string, pat: string)
    requires sep !in pat
    ensures Includes(a + [sep] + b, pat) <==> Includes(a, pat) || Includes(b, pat)
  {
    var t := a + [sep] + b;
    if Includes(a, pat) {
      var i :| 0 <= i <= |a| - |pat| && OccursAt(a, pat, i);
      assert t[i..i + |pat|] == a[i..i + |pat|];
      assert OccursAt(t, pat, i);
    }
    if Includes(b, pat) {
      var i :| 0 <= i <= |b| - |pat| && OccursAt(b, pat, i);
      var j := |a| + 1 + i;
      assert t[j..j + |pat|] == b[i..i + |pat|];
      assert OccursAt(t, pat, j);
    }
    if Includes(t, pat) {
      var i :| 0 <= i <= |t| - |pat| && OccursAt(t, pat, i);
      assert t[|a|] == sep;
      forall k | i <= k < i + |pat| ensures t[k] != sep {
        assert t[k] == t[i..i + |pat|][k - i];
      }
      if i + |pat| <= |a| {
        assert a[i..i + |pat|] == t[i..i + |pat|];
        assert OccursAt(a, pat, i);
      } else {
        // the occurrence cannot cover the separator, which is not in `pat`
        assert i >= |a| + 1;
        var j := i - |a| - 1;
        assert b[j..j + |pat|] == t[i..i + |pat|];
        assert OccursAt(b, pat, j);
      }
    }
  }

  /** `parts.join(sep)`. */
  function Join(parts: seq<string>, sep: string): string
  {
    if |parts| == 0 then ""
    else if |parts| == 1 then parts[0]
    else parts[0] + sep + Join(parts[1..], sep)
  }

  /** A non-empty pattern without spaces occurs in `parts.join(' ')` exactly
      when it occurs in one of the parts. */
  lemma {:induction false} IncludesJoin(parts: seq<string>, pat: string)
    requires pat != "" && ' ' !in pat
    ensures Includes(Join(parts, " "), pat) <==> exists k :: 0 <= k < |parts| && Includes(parts[k], pat)
  {
    if |parts| == 0 {
    } else if |parts| == 1 {
    } else {
      IncludesJoin(parts[1..], pat);
      IncludesAroundSeparator(parts[0], ' ', Join(parts[1..], " "), pat);
      assert Join(parts, " ") == parts[0] + [' '] + Join(parts[1..], " ");
      if exists k :: 0 <= k < |parts| && Includes(parts[k], pat) {
        var k :| 0 <= k < |parts| && Includes(parts[k], pat);
        if k > 0 { assert parts[1..][k - 1] == parts[k]; }
      }
      if exists k :: 0 <= k < |parts| - 1 && Includes(parts[1..][k], pat) {
        var k :| 0 <= k < |parts| - 1 && Includes(parts[1..][k], pat);
        assert parts[k + 1] == parts[1..][k];
      }
    }
  }

  // ---------------------------------------------------------------------------
  // White space and trim
  // ---------------------------------------------------------------------------

  /** StrWhiteSpaceChar: WhiteSpace (TAB, VT, FF, ZWNBSP and the Unicode space
      separators) and LineTerminator (LF, CR, LS, PS). */
  const WhiteSpaceChars: set<char> := {
    '\t', '\n', '\U{B}', '\U{C}', '\r', ' ', '\U{A0}', '\U{1680}',
    '\U{2000}', '\U{2001}', '\U{2002}', '\U{2003}', '\U{2004}', '\U{2005}',
    '\U{2006}', '\U{2007}', '\U{2008}', '\U{2009}', '\U{200A}',
    '\U{2028}', '\U{2029}', '\U{202F}', '\U{205F}', '\U{3000}', '\U{FEFF}'
  }

  predicate IsWhiteSpace(c: char) {
    c in WhiteSpaceChars
  }

  /** Leading white space removed. */
  function TrimStart(s: string): (r: string)
    ensures |r| <= |s| && r == s[|s| - |r|..]
    ensures r == [] || !IsWhiteSpace(r[0])
    ensures forall i :: 0 <= i < |s| - |r| ==> IsWhiteSpace(s[i])
  {
    if |s| > 0 && IsWhiteSpace(s[0]) then TrimStart(s[1..]) else s
  }

  /** Trailing white space removed. */
  function TrimEnd(s: string): (r: string)
    ensures |r| <= |s| && r == s[..|r|]
    ensures r == [] || !IsWhiteSpace(r[|r| - 1])
    ensures forall i :: |r| <= i < |s| ==> IsWhiteSpace(s[i])
  {
    if |s| > 0 && IsWhiteSpace(s[|s| - 1]) then TrimEnd(s[..|s| - 1]) else s
  }

  /** `s.trim()`. */
  function Trim(s: string): string {
    TrimEnd(TrimStart(s))
  }

  /** The first character of `s.trim()` is the first non-white-space character
      of `s`: trimming the end never removes it. */
  lemma TrimKeepsFirst(s: string)
    ensures |Trim(s)| > 0 <==> |TrimStart(s)| > 0
    ensures |Trim(s)| > 0 ==> Trim(s)[0] == TrimStart(s)[0]
  {
  }

  // ---------------------------------------------------------------------------
  // parseInt (ECMA-262, section 19.2.5) with the radix argument omitted
  // ---------------------------------------------------------------------------

  /** Value of a character as a digit of radix up to 36; 36 for a non-digit. */
  function DigitValue(c: char): (d: nat)
    ensures d <= 36
  {
    if '0' <= c <= '9' then c as int - '0' as int
    else if 'a' <= c <= 'z' then c as int - 'a' as int + 10
    else if 'A' <= c <= 'Z' then c as int - 'A' as int + 10
    else 36
  }

  predicate IsRadixDigit(c: char, radix: nat) {
    DigitValue(c) < radix
  }

  /** Length of the longest prefix made of radix-R digits (step 11). */
  function DigitPrefixLen(s: string, radix: nat): (n: nat)
    ensures n <= |s|
    ensures forall i :: 0 <= i < n ==> IsRadixDigit(s[i], radix)
    ensures n < |s| ==> !IsRadixDigit(s[n], radix)
  {
    if |s| > 0 && IsRadixDigit(s[0], radix) then 1 + DigitPrefixLen(s[1..], radix) else 0
  }

  /** Mathematical value of a digit string in a radix (step 13, exact). */
  function DigitsValue(ds: string, radix: nat): nat
  {
    if |ds| == 0 then 0 else DigitsValue(ds[..|ds| - 1], radix) * radix + DigitValue(ds[|ds| - 1])
  }

  /** Step 4: the string after a leading sign, if any. */
  function AfterSign(s: string): string {
    if |s| > 0 && (s[0] == '+' || s[0] == '-') then s[1..] else s
  }

  /** Step 3: a leading minus sign. */
  predicate Negative(s: string) {
    |s| > 0 && s[0] == '-'
  }

  /** Step 10: a "0x" or "0X" prefix switches to radix 16. */
  predicate HexPrefixed(u: string) {
    |u| >= 2 && u[0] == '0' && (u[1] == 'x' || u[1] == 'X')
  }

  function Radix(u: string): nat {
    if HexPrefixed(u) then 16 else 10
  }

  function Body(u: string): string {
    if HexPrefixed(u) then u[2..] else u
  }

  /** The digit run that `parseInt` reads from `input`. */
  function ParsedDigits(input: string): string {
    var u := AfterSign(TrimStart(input));
    Body(u)[..DigitPrefixLen(Body(u), Radix(u))]
  }

  /** `parseInt(input)`: None is NaN. The sign of -0 is not kept (it equals 0). */
  function ParseInt(input: string): Option<int>
  {
    var s := TrimStart(input);
    var u := AfterSign(s);
    var ds := ParsedDigits(input);
    var v: int := DigitsValue(ds, Radix(u));
    if ds == "" then None else if Negative(s) then Some(-v) else Some(v)
  }

  /** `parseInt` of a string that starts with neither white space, a sign
      nor a "0x" prefix reads its leading decimal digits. */
  lemma ParseIntUnsigned(s: string)
    requires |s| > 0 && !IsWhiteSpace(s[0]) && s[0] != '+' && s[0] != '-' && !HexPrefixed(s)
    ensures ParseInt(s) == if DigitPrefixLen(s, 10) == 0 then None else Some(DigitsValue(s[..DigitPrefixLen(s, 10)], 10))
  {
    assert TrimStart(s) == s;
    assert AfterSign(s) == s && !Negative(s);
    assert Body(s) == s && Radix(s) == 10;
    assert ParsedDigits(s) == s[..DigitPrefixLen(s, 10)];
  }

  /** A digit string has a positive value exactly when one of its digits is non-zero. */
  lemma {:induction false} DigitsValuePositive(ds: string, radix: nat)
    requires radix >= 1
    ensures DigitsValue(ds, radix) > 0 <==> exists i :: 0 <= i < |ds| && DigitValue(ds[i]) > 0
  {
    if |ds| > 0 {
      var init := ds[..|ds| - 1];
      var high := DigitsValue(init, radix);
      DigitsValuePositive(init, radix);
      ScaledPositive(high, radix);
      assert DigitsValue(ds, radix) == high * radix + DigitValue(ds[|ds| - 1]);
      if exists i :: 0 <= i < |init| && DigitValue(init[i]) > 0 {
        var i :| 0 <= i < |init| && DigitValue(init[i]) > 0;
        assert ds[i] == init[i];
      }
      if exists i :: 0 <= i < |ds| && DigitValue(ds[i]) > 0 {
        var i :| 0 <= i < |ds| && DigitValue(ds[i]) > 0;
        if i < |ds| - 1 { assert init[i] == ds[i]; }
      }
    }
  }

  lemma ScaledPositive(a: nat, b: nat)
    requires b >= 1
    ensures a * b > 0 <==> a > 0
  {
    if a > 0 { assert a * b >= a * 1; }
  }

  /** `parseInt` yields a positive number exactly when no minus sign leads
      and some digit of the run it reads is non-zero. */
  lemma ParseIntPositive(input: string)
    ensures (ParseInt(input).Some? && ParseInt(input).value > 0)
            <==> !Negative(TrimStart(input)) && exists i :: 0 <= i < |ParsedDigits(input)| && DigitValue(ParsedDigits(input)[i]) > 0
  {
    var s := TrimStart(input);
    var ds := ParsedDigits(input);
    var v: int := DigitsValue(ds, Radix(AfterSign(s)));
    DigitsValuePositive(ds, Radix(AfterSign(s)));
    assert ParseInt(input) == if ds == "" then None else if Negative(s) then Some(-v) else Some(v);
  }

  // ---------------------------------------------------------------------------
  // Number::toString for integers
  // ---------------------------------------------------------------------------

  function DigitChar(d: nat): (c: char)
    requires d < 10
    ensures '0' <= c <= '9' && DigitValue(c) == d
  {
    ('0' as int + d) as char
  }

  /** Decimal numeral of a natural number, as `n.toString()` prints it. */
  function DecimalString(n: nat): (r: string)
    ensures |r| > 0
    ensures forall i :: 0 <= i < |r| ==> '0' <= r[i] <= '9'
  {
    if n < 10 then [DigitChar(n)] else DecimalString(n / 10) + [DigitChar(n % 10)]
  }

  /** `i.toString()` for an integer. */
  function IntString(i: int): string {
    if i < 0 then "-" + DecimalString(-i) else DecimalString(i)
  }

  lemma {:induction false} DecimalStringValue(n: nat)
    ensures DigitsValue(DecimalString(n), 10) == n
  {
    if n >= 10 {
      DecimalStringValue(n / 10);
      var r := DecimalString(n);
      assert r[..|r| - 1] == DecimalString(n / 10);
    }
  }

  /** `parseInt(n.toString())` gives back `n`. */
  lemma ParseIntDecimal(n: nat)
    ensures ParseInt(DecimalString(n)) == Some(n)
  {
    var r := DecimalString(n);
    assert !IsWhiteSpace(r[0]);
    assert TrimStart(r) == r;
    assert !HexPrefixed(r);
    assert AfterSign(r) == r && Body(r) == r && Radix(r) == 10;
    var k := DigitPrefixLen(r, 10);
    assert k == |r|;
    assert ParsedDigits(r) == r;
    DecimalStringValue(n);
  }
}
