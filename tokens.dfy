/**
 * The two regular expressions of the chatbot, written out over characters,
 * and JavaScript's `parseInt` as the product routes use it.
 *
 *   `/\b\d{5}\b/`   a run of exactly five digits standing alone as a word
 *   `/\b(\d+)\b/`   the first run of digits standing alone as a word
 *
 * `\d` is [0-9] and `\w` is [A-Za-z0-9_] (no `u` flag), and `\b` holds
 * between a word character and a non-word character, the ends of the
 * string counting as non-word.
 */
module Tokens {
  import opened Wrappers
  import opened Text

  /** A half-open range `s[start..end]` of a string, as a regex match reports it. */
  datatype Span = Span(start: nat, end: nat)

  /** `\w` checked at position `p`; positions outside the string are not word characters. */
  predicate WordAt(s: string, p: int)
  {
    0 <= p < |s| && IsWordChar(s[p])
  }

  /** The assertion `\b` at position `p` (between `s[p - 1]` and `s[p]`). */
  predicate WordBoundary(s: string, p: int)
  {
    WordAt(s, p - 1) != WordAt(s, p)
  }

  /** `\b(\d+)\b` can match exactly `s[i..j]`. */
  predicate NumberTokenAt(s: string, i: int, j: int)
  {
    0 <= i < j <= |s| && AllDigits(s[i..j]) && WordBoundary(s, i) && WordBoundary(s, j)
  }

  /** `\b\d{5}\b` matches `s[i..i + 5]`. */
  predicate FiveDigitTokenAt(s: string, i: int)
  {
    NumberTokenAt(s, i, i + 5)
  }

  // ---------------------------------------------------------------------------
  // `/\b\d{5}\b/`

  /** The leftmost match of `\b\d{5}\b` at or after `from`. */
  function FiveDigitTokenFrom(s: string, from: nat): (r: Option<nat>)
    requires from <= |s|
    ensures r.Some? ==> from <= r.value && FiveDigitTokenAt(s, r.value)
    ensures forall i :: from <= i && (r.None? || i < r.value) ==> !FiveDigitTokenAt(s, i)
    decreases |s| - from
  {
    if from + 5 > |s| then None
    else if FiveDigitTokenAt(s, from) then Some(from)
    else FiveDigitTokenFrom(s, from + 1)
  }

  /** Where `/\b\d{5}\b/` first matches `s` (`RegExp.prototype.exec`), if anywhere. */
  function FindFiveDigitToken(s: string): (r: Option<nat>)
    ensures r.Some? ==> FiveDigitTokenAt(s, r.value)
    ensures r.Some? ==> forall i :: 0 <= i < r.value ==> !FiveDigitTokenAt(s, i)
    ensures r.None? <==> forall i :: !FiveDigitTokenAt(s, i)
  {
    FiveDigitTokenFrom(s, 0)
  }

  /**
   * ASCII lowering changes neither digits nor which characters are word
   * characters, so `/\b\d{5}\b/` finds the same token in a query and in its
   * lowered form: the classifier tests the lowered query and the order handler
   * reads the token from the original, and the two always agree.
   */
  lemma FiveDigitTokenIgnoresCase(s: string)
    ensures FindFiveDigitToken(Lower(s)) == FindFiveDigitToken(s)
    ensures FindFiveDigitToken(s).Some? ==>
              var i := FindFiveDigitToken(s).value; Lower(s)[i..i + 5] == s[i..i + 5]
  {
    forall i, j | 0 <= i <= j <= |s|
      ensures NumberTokenAt(Lower(s), i, j) <==> NumberTokenAt(s, i, j)
    {
      NumberTokenIgnoresCase(s, i, j);
    }
    LowerFiveDigitTokenFrom(s, 0);
  }

  lemma NumberTokenIgnoresCase(s: string, i: int, j: int)
    requires 0 <= i <= j <= |s|
    ensures NumberTokenAt(Lower(s), i, j) <==> NumberTokenAt(s, i, j)
    ensures AllDigits(s[i..j]) ==> Lower(s)[i..j] == s[i..j]
  {
    var l := Lower(s);
    forall k | 0 <= k < |s|
      ensures IsDigit(l[k]) <==> IsDigit(s[k])
      ensures IsWordChar(l[k]) <==> IsWordChar(s[k])
      ensures IsDigit(s[k]) ==> l[k] == s[k]
    {
      LowerKeepsClasses(s, k);
    }
    assert WordAt(l, i - 1) == WordAt(s, i - 1) && WordAt(l, i) == WordAt(s, i);
    assert WordAt(l, j - 1) == WordAt(s, j - 1) && WordAt(l, j) == WordAt(s, j);
    assert AllDigits(l[i..j]) <==> AllDigits(s[i..j]) by {
      assert forall k :: 0 <= k < j - i ==> l[i..j][k] == l[i + k] && s[i..j][k] == s[i + k];
    }
  }

  lemma {:induction false} LowerFiveDigitTokenFrom(s: string, from: nat)
    requires from <= |s|
    requires forall i, j :: 0 <= i <= j <= |s| ==> (NumberTokenAt(Lower(s), i, j) <==> NumberTokenAt(s, i, j))
    ensures FiveDigitTokenFrom(Lower(s), from) == FiveDigitTokenFrom(s, from)
    decreases |s| - from
  {
    if from + 5 <= |s| {
      assert FiveDigitTokenAt(Lower(s), from) == FiveDigitTokenAt(s, from);
      if !FiveDigitTokenAt(s, from) {
        LowerFiveDigitTokenFrom(s, from + 1);
      }
    }
  }

  // ---------------------------------------------------------------------------
  // `/\b(\d+)\b/`

  /** The end of the run of digits that starts at `i`. */
  function DigitRunEnd(s: string, i: nat): (j: nat)
    requires i <= |s|
    ensures i <= j <= |s| && AllDigits(s[i..j])
    ensures forall k :: i <= k < j ==> IsDigit(s[k])
    ensures j == |s| || !IsDigit(s[j])
    decreases |s| - i
  {
    if i < |s| && IsDigit(s[i]) then
      var j := DigitRunEnd(s, i + 1);
      assert forall k :: 0 <= k < j - i ==> s[i..j][k] == s[i + k];
      assert forall k :: i + 1 <= k < j ==> s[k] == s[i + 1..j][k - i - 1];
      j
    else i
  }

  /** A match of `\b\d+\b` starting at `i` takes the whole run of digits: `\b` cannot fall inside the run. */
  lemma NumberTokenEnd(s: string, i: nat, j: int)
    requires i <= |s| && NumberTokenAt(s, i, j)
    ensures j == DigitRunEnd(s, i)
  {
    forall k | i <= k < j
      ensures IsDigit(s[k])
    {
      assert s[i..j][k - i] == s[k];
    }
  }

  /** The leftmost match of `\b(\d+)\b` starting at or after `from`. */
  function NumberTokenFrom(s: string, from: nat): (r: Option<Span>)
    requires from <= |s|
    ensures r.Some? ==> from <= r.value.start && NumberTokenAt(s, r.value.start, r.value.end)
    ensures r.Some? ==> forall j :: NumberTokenAt(s, r.value.start, j) ==> j == r.value.end
    ensures forall i, j :: from <= i && (r.None? || i < r.value.start) ==> !NumberTokenAt(s, i, j)
    decreases |s| - from
  {
    if from == |s| then None
    else
      var e := DigitRunEnd(s, from);
      if e > from && WordBoundary(s, from) && WordBoundary(s, e) then
        assert forall j :: NumberTokenAt(s, from, j) ==> j == e by {
          forall j | NumberTokenAt(s, from, j) ensures j == e {
            NumberTokenEnd(s, from, j);
          }
        }
        Some(Span(from, e))
      else
        assert forall j :: !NumberTokenAt(s, from, j) by {
          forall j | NumberTokenAt(s, from, j) ensures false {
            NumberTokenEnd(s, from, j);
          }
        }
        NumberTokenFrom(s, from + 1)
  }

  /** Where `/\b(\d+)\b/` first matches `s`, with its capture group `s[start..end]`. */
  function FindNumberToken(s: string): (r: Option<Span>)
    ensures r.Some? ==> NumberTokenAt(s, r.value.start, r.value.end)
    ensures r.Some? ==> forall i, j :: 0 <= i < r.value.start ==> !NumberTokenAt(s, i, j)
    ensures r.None? <==> forall i, j :: !NumberTokenAt(s, i, j)
  {
    NumberTokenFrom(s, 0)
  }

  /** A five-digit token is also a number token, and the first number token is no later than it. */
  lemma FiveDigitTokenIsNumberToken(s: string)
    requires FindFiveDigitToken(s).Some?
    ensures FindNumberToken(s).Some?
    ensures FindNumberToken(s).value.start <= FindFiveDigitToken(s).value
  {
    var i := FindFiveDigitToken(s).value;
    assert NumberTokenAt(s, i, i + 5);
  }

  // ---------------------------------------------------------------------------
  // `parseInt(text)` with no radix

  predicate IsHexDigit(c: char)
  {
    IsDigit(c) || 'a' <= c <= 'f' || 'A' <= c <= 'F'
  }

  predicate IsRadixDigit(c: char, hex: bool)
  {
    if hex then IsHexDigit(c) else IsDigit(c)
  }

  function RadixDigitValue(c: char, hex: bool): nat
    requires IsRadixDigit(c, hex)
  {
    if IsDigit(c) then DigitValue(c)
    else if 'a' <= c <= 'f' then c as int - 'a' as int + 10
    else c as int - 'A' as int + 10
  }

  /** The number of leading characters of `s` that are digits of the radix. */
  function RadixPrefixLength(s: string, hex: bool): (n: nat)
    ensures n <= |s|
    ensures forall k :: 0 <= k < n ==> IsRadixDigit(s[k], hex)
    ensures n == |s| || !IsRadixDigit(s[n], hex)
    decreases |s|
  {
    if |s| > 0 && IsRadixDigit(s[0], hex) then 1 + RadixPrefixLength(s[1..], hex) else 0
  }

  /** The value of a run of digits in radix 16 (`hex`) or 10. */
  function RadixValue(ds: string, hex: bool): nat
    requires forall k :: 0 <= k < |ds| ==> IsRadixDigit(ds[k], hex)
    decreases |ds|
  {
    if |ds| == 0 then 0
    else RadixValue(ds[..|ds| - 1], hex) * (if hex then 16 else 10) + RadixDigitValue(ds[|ds| - 1], hex)
  }

  lemma {:induction false} DecimalRadixValue(ds: string)
    requires AllDigits(ds)
    ensures RadixValue(ds, false) == DecimalValue(ds)
    decreases |ds|
  {
    if |ds| > 0 {
      DecimalRadixValue(ds[..|ds| - 1]);
    }
  }

  /**
   * The digits part of `parseInt`: a `0x`/`0X` prefix switches to radix 16,
   * then the longest run of digits of the radix is read and the rest ignored.
   * `None` when there is no digit.
   */
  function ParseUnsigned(u: string): Option<nat>
  {
    var hex := |u| >= 2 && u[0] == '0' && (u[1] == 'x' || u[1] == 'X');
    var body := if hex then u[2..] else u;
    var n := RadixPrefixLength(body, hex);
    if n == 0 then None else Some(RadixValue(body[..n], hex))
  }

  /**
   * `parseInt(text)` with no radix: leading whitespace is skipped, then an
   * optional sign, then the digits.  `None` is `NaN`.
   */
  function ParseInt(text: string): Option<int>
  {
    var t := TrimStart(text);
    var negative := |t| > 0 && t[0] == '-';
    var u := if |t| > 0 && (t[0] == '-' || t[0] == '+') then t[1..] else t;
    match ParseUnsigned(u)
    case None => None
    case Some(v) => Some(if negative then -(v as int) else v as int)
  }

  /** `parseInt(String(i)) === i`: printing an integer and parsing it back is the identity. */
  lemma ParseIntOfIntToString(i: int)
    ensures ParseInt(IntToString(i)) == Some(i)
  {
    var digits := NatToString(if i < 0 then -i else i);
    ParseUnsignedOfNumeral(digits);
    var s := IntToString(i);
    assert !IsJsWhitespace(s[0]);
    assert TrimStart(s) == s;
    if i < 0 {
      assert s[1..] == digits;
    }
  }

  lemma ParseUnsignedOfNumeral(digits: string)
    requires |digits| >= 1 && AllDigits(digits)
    requires digits[0] == '0' ==> |digits| == 1
    ensures ParseUnsigned(digits) == Some(DecimalValue(digits))
  {
    RadixPrefixLengthAll(digits, false);
    assert digits[..|digits|] == digits;
    DecimalRadixValue(digits);
  }

  lemma {:induction false} RadixPrefixLengthAll(s: string, hex: bool)
    requires forall k :: 0 <= k < |s| ==> IsRadixDigit(s[k], hex)
    ensures RadixPrefixLength(s, hex) == |s|
    decreases |s|
  {
    if |s| > 0 {
      RadixPrefixLengthAll(s[1..], hex);
    }
  }
}
