/**
 * The few JavaScript string built-ins the front end's rules are written with:
 * `String(x)` of an optional value, `toLowerCase`, `includes`, `replace` of a
 * first occurrence and the global `parseInt`.
 */
module JsText {
  import opened Wrappers

  /** `String(x)` for an optional string: `undefined` prints as "undefined". */
  function StringOf(x: Option<string>): (r: string)
    ensures x.Some? ==> r == x.value
    ensures x.None? ==> r == "undefined"
  {
    x.GetOr("undefined")
  }

  predicate IsUpper(c: char) {
    'A' <= c <= 'Z'
  }

  function LowerChar(c: char): (d: char)
    ensures !IsUpper(d)
    ensures !IsUpper(c) ==> d == c
  {
    if IsUpper(c) then (c as int + 32) as char else c
  }

  /** `toLowerCase`, restricted to the ASCII letters. */
  function ToLower(s: string): (r: string)
    ensures |r| == |s|
    ensures forall i :: 0 <= i < |s| ==> r[i] == LowerChar(s[i])
  {
    seq(|s|, i requires 0 <= i < |s| => LowerChar(s[i]))
  }

  /** `needle` occurs in `hay` at position `i`. */
  predicate OccursAt(hay: string, needle: string, i: int) {
    0 <= i && i + |needle| <= |hay| && hay[i..i + |needle|] == needle
  }

  /** `hay.includes(needle)`. */
  predicate Includes(hay: string, needle: string)
    decreases |hay|
  {
    needle <= hay || (hay != [] && Includes(hay[1..], needle))
  }

  lemma OccursAtShift(hay: string, needle: string, i: int)
    requires hay != []
    ensures OccursAt(hay, needle, i) <==>
      (i == 0 && needle <= hay) || (i >= 1 && OccursAt(hay[1..], needle, i - 1))
  {
    if i >= 1 && i + |needle| <= |hay| {
      assert hay[1..][i - 1..i - 1 + |needle|] == hay[i..i + |needle|];
    }
  }

  /** `includes` holds exactly when the needle occurs at some position. */
  lemma {:induction false} IncludesIffOccurs(hay: string, needle: string)
    ensures Includes(hay, needle) <==> exists i :: OccursAt(hay, needle, i)
    decreases |hay|
  {
    if hay == [] {
      if needle <= hay {
        assert OccursAt(hay, needle, 0);
      }
    } else {
      IncludesIffOccurs(hay[1..], needle);
      forall i
        ensures OccursAt(hay, needle, i) <==>
          (i == 0 && needle <= hay) || (i >= 1 && OccursAt(hay[1..], needle, i - 1))
      {
        OccursAtShift(hay, needle, i);
      }
      if needle <= hay {
        assert OccursAt(hay, needle, 0);
      } else if Includes(hay[1..], needle) {
        var i :| OccursAt(hay[1..], needle, i);
        assert OccursAt(hay, needle, i + 1);
      }
    }
  }

  /** The empty string is included in every string. */
  lemma IncludesEmpty(hay: string)
    ensures Includes(hay, "")
  {
  }

  /** `s.indexOf(c)` for a character that occurs in `s`: the position of its first occurrence. */
  function IndexOf(s: string, c: char): (k: nat)
    requires c in s
    ensures k < |s| && s[k] == c
    ensures forall i :: 0 <= i < k ==> s[i] != c
  {
    if s[0] == c then 0
    else
      assert s == [s[0]] + s[1..];
      IndexOf(s[1..], c) + 1
  }

  /** `s.replace(c, "")` with a one-character pattern: only the first occurrence goes. */
  function RemoveFirst(s: string, c: char): (r: string)
    ensures c !in s ==> r == s
    ensures c in s ==> |r| == |s| - 1 && multiset(r) == multiset(s) - multiset{c}
    ensures c in s ==> exists k :: 0 <= k < |s| && s[k] == c && c !in s[..k] && r == s[..k] + s[k + 1..]
  {
    if c in s then
      var k := IndexOf(s, c);
      assert s == s[..k] + [c] + s[k + 1..];
      assert c !in s[..k];
      s[..k] + s[k + 1..]
    else
      s
  }

  /** Removing the first `c` from a string that ends in its only `c` gives back the rest. */
  lemma {:induction false} RemoveFirstOfAppended(s: string, c: char)
    requires c !in s
    ensures RemoveFirst(s + [c], c) == s
  {
    if s != [] {
      assert (s + [c])[1..] == s[1..] + [c];
      RemoveFirstOfAppended(s[1..], c);
    }
  }

  /** JavaScript's `s || fallback` for a string `s`: the empty string is falsy. */
  function OrElse(s: string, fallback: string): (r: string)
    ensures r == s || r == fallback
    ensures r == "" <==> s == "" && fallback == ""
    ensures s != "" ==> r == s
  {
    if s == "" then fallback else s
  }

  /** The characters `parseInt` skips first: WhiteSpace and LineTerminator of ECMA-262. */
  predicate IsJsWhitespace(c: char) {
    var n := c as int;
    n in {0x09, 0x0A, 0x0B, 0x0C, 0x0D, 0x20, 0xA0, 0x1680, 0x2028, 0x2029, 0x202F, 0x205F, 0x3000, 0xFEFF}
    || 0x2000 <= n <= 0x200A
  }

  function TrimStart(s: string): (r: string)
    ensures |r| <= |s| && r == s[|s| - |r|..]
    ensures r != [] ==> !IsJsWhitespace(r[0])
  {
    if s != [] && IsJsWhitespace(s[0]) then TrimStart(s[1..]) else s
  }

  /** The value of `c` as a digit in base `radix` (10 or 16), if it is one. */
  function DigitValue(c: char, radix: int): (d: Option<int>)
    requires radix == 10 || radix == 16
    ensures d.Some? ==> 0 <= d.value < radix
  {
    if '0' <= c <= '9' then Some(c as int - '0' as int)
    else if radix == 16 && 'a' <= c <= 'f' then Some(c as int - 'a' as int + 10)
    else if radix == 16 && 'A' <= c <= 'F' then Some(c as int - 'A' as int + 10)
    else None
  }

  /** The longest prefix of `s` made of digits of base `radix`. */
  function LeadingDigits(s: string, radix: int): (r: string)
    requires radix == 10 || radix == 16
    ensures r <= s
    ensures forall i :: 0 <= i < |r| ==> DigitValue(r[i], radix).Some?
    ensures |r| < |s| ==> DigitValue(s[|r|], radix).None?
  {
    if s != [] && DigitValue(s[0], radix).Some? then [s[0]] + LeadingDigits(s[1..], radix) else []
  }

  /** The number that a string of digits denotes in base `radix`. */
  function DigitsValue(digits: string, radix: int): (n: nat)
    requires radix == 10 || radix == 16
    requires forall i :: 0 <= i < |digits| ==> DigitValue(digits[i], radix).Some?
  {
    if digits == [] then 0
    else DigitsValue(digits[..|digits| - 1], radix) * radix + DigitValue(digits[|digits| - 1], radix).value
  }

  /** `s` starts with "0x" or "0X". */
  predicate HasHexPrefix(s: string) {
    |s| >= 2 && s[0] == '0' && (s[1] == 'x' || s[1] == 'X')
  }

  /** The number that the leading digits of `s` denote, or `None` when `s` starts with no digit. */
  function DigitsNumber(s: string, radix: int): (r: Option<nat>)
    requires radix == 10 || radix == 16
    ensures r.None? <==> s == [] || DigitValue(s[0], radix).None?
  {
    var digits := LeadingDigits(s, radix);
    if digits == [] then None else Some(DigitsValue(digits, radix))
  }

  /** An unsigned number: base 16 after a "0x"/"0X" prefix, base 10 otherwise. */
  function ParseUnsigned(u: string): Option<nat> {
    if HasHexPrefix(u) then DigitsNumber(u[2..], 16) else DigitsNumber(u, 10)
  }

  /** One optional sign, then an unsigned number. */
  function ParseSigned(t: string): Option<int> {
    var negative := t != [] && t[0] == '-';
    var unsigned := if t != [] && (t[0] == '-' || t[0] == '+') then t[1..] else t;
    match ParseUnsigned(unsigned)
    case None => None
    case Some(n) => Some(if negative then -(n as int) else n)
  }

  /**
   * The global `parseInt(s)` with no radix: skip leading white space, take one
   * optional sign, read base 16 after a "0x"/"0X" prefix and base 10 otherwise,
   * and use the longest run of digits; `None` is `NaN` (no digit at all).
   */
  function ParseInt(s: string): (r: Option<int>)
    ensures TrimStart(s) == [] ==> r.None?
  {
    ParseSigned(TrimStart(s))
  }

  /** `s` is a non-empty run of decimal digits with no "0x" prefix. */
  predicate IsDecimal(s: string) {
    s != [] && !HasHexPrefix(s) && forall i :: 0 <= i < |s| ==> '0' <= s[i] <= '9'
  }

  /** A number is only read where the text has a decimal digit. */
  lemma ParseIntNeedsDigit(s: string)
    ensures ParseInt(s).Some? ==> exists i :: 0 <= i < |s| && '0' <= s[i] <= '9'
  {
    var t := TrimStart(s);
    if ParseSigned(t).Some? {
      var j := ParseSignedDigitAt(t);
      SuffixDigit(s, t, j);
    }
  }

  lemma SuffixDigit(s: string, t: string, j: int)
    requires |t| <= |s| && t == s[|s| - |t|..] && 0 <= j < |t| && '0' <= t[j] <= '9'
    ensures exists i :: 0 <= i < |s| && '0' <= s[i] <= '9'
  {
    assert s[|s| - |t| + j] == t[j];
  }

  /** The position of a decimal digit in a text that `ParseSigned` reads a number from. */
  lemma ParseSignedDigitAt(t: string) returns (j: int)
    requires ParseSigned(t).Some?
    ensures 0 <= j < |t| && '0' <= t[j] <= '9'
  {
    var signed := t != [] && (t[0] == '-' || t[0] == '+');
    var u := if signed then t[1..] else t;
    ParseUnsignedNeedsDigit(u);
    j := if signed then 1 else 0;
    assert t[j] == u[0];
  }

  lemma ParseUnsignedNeedsDigit(u: string)
    ensures ParseUnsigned(u).Some? ==> u != [] && '0' <= u[0] <= '9'
  {
    if ParseUnsigned(u).Some? && !HasHexPrefix(u) {
      assert DigitValue(u[0], 10).Some?;
    }
  }

  /** A plain run of decimal digits is read in full. */
  lemma ParseIntOfDecimal(s: string)
    requires IsDecimal(s)
    ensures ParseInt(s) == Some(DigitsValue(s, 10) as int)
  {
    assert !IsJsWhitespace(s[0]);
    assert TrimStart(s) == s;
    assert LeadingDigits(s, 10) == s;
  }

  lemma {:induction false} TrimStartAppendPercent(s: string)
    ensures TrimStart(s + "%") == TrimStart(s) + "%"
  {
    if s != [] && IsJsWhitespace(s[0]) {
      assert (s + "%")[1..] == s[1..] + "%";
      TrimStartAppendPercent(s[1..]);
    }
  }

  lemma {:induction false} LeadingDigitsAppendPercent(s: string, radix: int)
    requires radix == 10 || radix == 16
    ensures LeadingDigits(s + "%", radix) == LeadingDigits(s, radix)
  {
    if s != [] && DigitValue(s[0], radix).Some? {
      assert (s + "%")[1..] == s[1..] + "%";
      LeadingDigitsAppendPercent(s[1..], radix);
    }
  }

  lemma ParseUnsignedAppendPercent(u: string)
    ensures ParseUnsigned(u + "%") == ParseUnsigned(u)
  {
    assert HasHexPrefix(u + "%") == HasHexPrefix(u);
    if HasHexPrefix(u) {
      assert (u + "%")[2..] == u[2..] + "%";
      LeadingDigitsAppendPercent(u[2..], 16);
    } else {
      LeadingDigitsAppendPercent(u, 10);
    }
  }

  lemma ParseSignedAppendPercent(t: string)
    ensures ParseSigned(t + "%") == ParseSigned(t)
  {
    if t != [] && (t[0] == '-' || t[0] == '+') {
      assert (t + "%")[1..] == t[1..] + "%";
      ParseUnsignedAppendPercent(t[1..]);
    } else {
      ParseUnsignedAppendPercent(t);
    }
  }

  /** A trailing '%' never changes what `parseInt` reads. */
  lemma ParseIntIgnoresPercentSuffix(s: string)
    ensures ParseInt(s + "%") == ParseInt(s)
  {
    TrimStartAppendPercent(s);
    ParseSignedAppendPercent(TrimStart(s));
  }

  lemma DigitsNumberTwoDigits(a: char, b: char)
    requires '0' <= a <= '9' && '0' <= b <= '9'
    ensures DigitsNumber([a, b], 10) == Some((a as int - '0' as int) * 10 + (b as int - '0' as int))
  {
    var s := [a, b];
    assert s[1..] == [b] && [b][1..] == [];
    assert LeadingDigits([b], 10) == [b];
    assert LeadingDigits(s, 10) == s;
    assert s[..1] == [a] && [a][..0] == [];
    assert DigitsValue([a], 10) == a as int - '0' as int;
  }

  /** `parseInt` of a two-digit score such as "78%" is the number the digits spell. */
  lemma ParseIntTwoDigitScore(a: char, b: char)
    requires '1' <= a <= '9' && '0' <= b <= '9'
    ensures ParseInt([a, b] + "%") == Some((a as int - '0' as int) * 10 + (b as int - '0' as int))
  {
    var s := [a, b];
    assert !IsJsWhitespace(a);
    assert TrimStart(s) == s;
    assert !HasHexPrefix(s);
    DigitsNumberTwoDigits(a, b);
    assert ParseUnsigned(s) == DigitsNumber(s, 10);
    assert ParseSigned(s) == Some((a as int - '0' as int) * 10 + (b as int - '0' as int));
    ParseIntIgnoresPercentSuffix(s);
  }

  /** The same, for a score given as text. */
  lemma ParseIntOfTwoDigitScore(s: string, a: char, b: char)
    requires '1' <= a <= '9' && '0' <= b <= '9' && s == [a, b] + "%"
    ensures ParseInt(s) == Some((a as int - '0' as int) * 10 + (b as int - '0' as int))
  {
    ParseIntTwoDigitScore(a, b);
  }
}
