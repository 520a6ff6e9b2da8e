/** The JavaScript built-ins that the cell editor leans on, stated over
    JavaScript's own string representation: a sequence of UTF-16 code units. */
module JsBuiltins {

  /** One UTF-16 code unit, the element of a JavaScript string. */
  newtype CodeUnit = x: int | 0 <= x < 0x1_0000

  /** A JavaScript string. The empty string also stands for `null` and
      `undefined` wherever the source only tests a value for truthiness. */
  type JsString = seq<CodeUnit>

  /** `undefined` or a value. */
  datatype Option<T> = None | Some(value: T)

  /** The string literal "1234567890" as code units. */
  const Digits: JsString := [49, 50, 51, 52, 53, 54, 55, 56, 57, 48]

  /** `xs.indexOf(x)` on an array of numbers: the first position holding `x`
      (strict equality), or -1. */
  function ArrayIndexOf(xs: seq<int>, x: int): (r: int)
    ensures -1 <= r < |xs|
    ensures r >= 0 ==> xs[r] == x && forall j :: 0 <= j < r ==> xs[j] != x
    ensures r == -1 <==> x !in xs
  {
    if xs == [] then -1
    else if xs[0] == x then 0
    else
      var k := ArrayIndexOf(xs[1..], x);
      assert forall j :: 0 < j < |xs| ==> xs[j] == xs[1..][j - 1];
      if k < 0 then -1 else k + 1
  }

  /** `needle` occurs in `hay` starting at position `k`. */
  predicate OccursAt(hay: JsString, needle: JsString, k: int)
  {
    0 <= k && k + |needle| <= |hay| && hay[k..k + |needle|] == needle
  }

  /** `needle` is a substring of `hay`. */
  ghost predicate IsSubstring(needle: JsString, hay: JsString)
  {
    exists k :: OccursAt(hay, needle, k)
  }

  lemma OccursAtTail(hay: JsString, needle: JsString, k: int)
    requires hay != [] && 0 <= k
    ensures OccursAt(hay, needle, k + 1) <==> OccursAt(hay[1..], needle, k)
  {
    if k + 1 + |needle| <= |hay| {
      assert hay[k + 1..k + 1 + |needle|] == hay[1..][k..k + |needle|];
    }
  }

  /** `hay.indexOf(needle)` on strings: the first position at which `needle`
      occurs in `hay`, or -1 when it occurs nowhere. The empty string occurs
      at position 0 of every string. */
  function IndexOf(hay: JsString, needle: JsString): (r: int)
    ensures -1 <= r <= |hay|
    ensures r >= 0 ==> OccursAt(hay, needle, r)
    ensures r >= 0 ==> forall k :: 0 <= k < r ==> !OccursAt(hay, needle, k)
    ensures r == -1 <==> forall k :: !OccursAt(hay, needle, k)
    decreases |hay|
  {
    if OccursAt(hay, needle, 0) then 0
    else if hay == [] then -1
    else
      var k := IndexOf(hay[1..], needle);
      assert forall j :: 0 <= j ==> (OccursAt(hay, needle, j + 1) <==> OccursAt(hay[1..], needle, j)) by {
        forall j | 0 <= j ensures OccursAt(hay, needle, j + 1) <==> OccursAt(hay[1..], needle, j) {
          OccursAtTail(hay, needle, j);
        }
      }
      assert forall j :: 0 < j ==> (OccursAt(hay, needle, j) <==> OccursAt(hay[1..], needle, j - 1));
      if k < 0 then -1 else k + 1
  }

  /** A decimal digit '0'..'9'; the regular-expression class `\d` matches
      exactly these code units. */
  predicate IsAsciiDigit(u: CodeUnit)
  {
    48 <= u <= 57
  }

  /** `/\d/.test(s)`: the unanchored pattern matches when some code unit of
      `s` is a decimal digit. */
  function TestDigit(s: JsString): (r: bool)
    ensures r <==> exists i :: 0 <= i < |s| && IsAsciiDigit(s[i])
  {
    if s == [] then false
    else
      assert forall i :: 0 < i < |s| ==> s[i] == s[1..][i - 1];
      IsAsciiDigit(s[0]) || TestDigit(s[1..])
  }

  /** `String.fromCharCode(code)` on an integer: the one-unit string whose
      code unit is `code` reduced modulo 2^16 (ToUint16), so that negative
      and large codes wrap around. */
  function FromCharCode(code: int): (r: JsString)
    ensures |r| == 1
    ensures 0 <= code < 0x1_0000 ==> r[0] as int == code
    ensures (r[0] as int - code) % 0x1_0000 == 0
  {
    [(code % 0x1_0000) as CodeUnit]
  }

  /** Every code unit of a substring of "1234567890" is a digit. */
  lemma SubstringOfDigitsIsDigits(s: JsString)
    requires IsSubstring(s, Digits)
    ensures forall i :: 0 <= i < |s| ==> IsAsciiDigit(s[i])
  {
    var k :| OccursAt(Digits, s, k);
    forall i | 0 <= i < |s| ensures IsAsciiDigit(s[i]) {
      assert s[i] == Digits[k + i];
    }
  }
}
