/** Values and string helpers shared by every component of the model. */
module Common {

  /** `undefined` (None) or a value (Some). */
  datatype Option<T> = None | Some(value: T) {
    /** `x ?? d`: the value, or `d` when it is undefined. */
    function GetOr(d: T): T {
      if Some? then value else d
    }
  }

  /** What a JavaScript `throw` carries in this model. */
  datatype Error =
    | TypeError                  // dereferencing `undefined` (property read or call)
    | Thrown(message: string)    // `throw new Error(message)`

  /** A call that returns a value or throws. */
  datatype Result<T> = Ok(value: T) | Err(error: Error)

  /** The values found in the source's loosely typed `Record<string, any>` bags. */
  datatype Value = VBool(b: bool) | VNum(n: int) | VStr(s: string) | VNull

  type Record = map<string, Value>

  /** `s || d` for a string that may be undefined: empty and undefined both fall back to `d`. */
  function OrElse(s: Option<string>, d: string): (r: string)
    ensures r == d || (s.Some? && r == s.value && s.value != "")
    ensures s.Some? && s.value != "" ==> r == s.value
  {
    if s.Some? && s.value != "" then s.value else d
  }

  /** Truthiness of an optional string. */
  predicate Truthy(s: Option<string>) {
    s.Some? && s.value != ""
  }

  predicate StartsWith(s: string, prefix: string) {
    |prefix| <= |s| && s[..|prefix|] == prefix
  }

  /** `s.replace(/^c/, '')`: removes one leading occurrence of `c`, if any. */
  function StripLeading(s: string, c: char): (r: string)
    ensures |s| > 0 && s[0] == c ==> s == [c] + r
    ensures !(|s| > 0 && s[0] == c) ==> r == s
  {
    if |s| > 0 && s[0] == c then s[1..] else s
  }

  // ---------------------------------------------------------------------------
  // Decimal numbers: `${n}` and `Number(s)` for the non-negative integers used as window ids.
  // ---------------------------------------------------------------------------

  predicate IsDigit(c: char) {
    '0' <= c <= '9'
  }

  predicate AllDigits(s: string) {
    forall i :: 0 <= i < |s| ==> IsDigit(s[i])
  }

  function DigitChar(d: nat): (c: char)
    requires d < 10
    ensures IsDigit(c) && (c as int) - ('0' as int) == d
  {
    (('0' as int) + d) as char
  }

  /** `${n}`: the canonical decimal spelling of `n`. */
  function NatToString(n: nat): (s: string)
    ensures |s| > 0 && AllDigits(s)
    ensures n > 0 ==> s[0] != '0'
  {
    if n < 10 then [DigitChar(n)] else NatToString(n / 10) + [DigitChar(n % 10)]
  }

  /**
   * A string that starts with an ASCII letter other than the 'I' of "Infinity": no sign, digit,
   * point, radix prefix or whitespace comes first, so `Number` reads it as NaN.
   */
  predicate LetterLed(s: string) {
    |s| > 0 && s[0] != 'I' && (('a' <= s[0] <= 'z') || ('A' <= s[0] <= 'Z'))
  }

  /** The value of a string of decimal digits (leading zeros allowed). */
  function DigitsValue(s: string): nat
    requires AllDigits(s)
  {
    if |s| == 0 then 0
    else DigitsValue(s[..|s| - 1]) * 10 + ((s[|s| - 1] as int) - ('0' as int))
  }

  /**
   * `Number(s)` on strings of decimal digits: a non-empty one yields its value; any other string
   * yields None, which stands for NaN or 0 (both falsy where the source uses the result). This is
   * exact for digit strings up to 2^53 and for strings Number reads as NaN (see LetterLed), not for
   * signs, fractions, exponents, radix prefixes, surrounding whitespace or "Infinity".
   */
  function ParseNumber(s: string): (r: Option<nat>)
    ensures r.Some? <==> |s| > 0 && AllDigits(s)
  {
    if |s| > 0 && AllDigits(s) then Some(DigitsValue(s)) else None
  }

  /** `Number(`${n}`) === n`: formatting a window id and parsing it back is the identity. */
  lemma {:induction false} ParseFormatRoundTrip(n: nat)
    ensures ParseNumber(NatToString(n)) == Some(n)
  {
    var s := NatToString(n);
    if n >= 10 {
      ParseFormatRoundTrip(n / 10);
      assert s[..|s| - 1] == NatToString(n / 10);
      assert (s[|s| - 1] as int) - ('0' as int) == n % 10;
      assert DigitsValue(s) == (n / 10) * 10 + n % 10;
    } else {
      assert DigitsValue(s) == DigitsValue([]) * 10 + n;
    }
  }

  /** Distinct window ids have distinct decimal spellings. */
  lemma NatToStringInjective(m: nat, n: nat)
    requires NatToString(m) == NatToString(n)
    ensures m == n
  {
    ParseFormatRoundTrip(m);
    ParseFormatRoundTrip(n);
  }
}
