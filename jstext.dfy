/**
 * The few ECMAScript string and number built-ins that the service relies on:
 * `String.prototype.trim`, `String(n)` for an integer `n`, the regular
 * expression class `\d` and `Number(s)` on a string of decimal digits.
 */
module JsText {

  /** The WhiteSpace and LineTerminator code points that `trim` strips (ECMA-262, section 22.1.3.32). */
  predicate IsWhitespace(c: char) {
    c == '\t' || c == '\n' || c == '\U{000B}' || c == '\U{000C}' || c == '\r' || c == ' '
    || c == '\U{00A0}' || c == '\U{1680}' || ('\U{2000}' <= c <= '\U{200A}')
    || c == '\U{2028}' || c == '\U{2029}' || c == '\U{202F}' || c == '\U{205F}'
    || c == '\U{3000}' || c == '\U{FEFF}'
  }

  predicate AllWhitespace(s: string) {
    forall i :: 0 <= i < |s| ==> IsWhitespace(s[i])
  }

  /** `\d` without the `u` flag: the ASCII digits only. */
  predicate IsAsciiDigit(c: char) {
    '0' <= c <= '9'
  }

  predicate AllDigits(s: string) {
    forall i :: 0 <= i < |s| ==> IsAsciiDigit(s[i])
  }

  /** The regular expression `/^\d{4}$/`: exactly four ASCII digits and nothing else. */
  predicate IsFourDigits(s: string)
    ensures IsFourDigits(s) ==> |s| == 4 && AllDigits(s) && DigitsValue(s) <= 9999
    ensures IsFourDigits(s) ==> !IsWhitespace(s[0]) && !IsWhitespace(s[3])
  {
    |s| == 4 && AllDigits(s)
  }

  function Pow10(k: nat): (r: nat)
    ensures r >= 1
  {
    if k == 0 then 1 else 10 * Pow10(k - 1)
  }

  /** Strips leading whitespace: what is removed is whitespace, and what is left does not start with any. */
  function TrimStart(s: string): (r: string)
    ensures |r| <= |s| && r == s[|s| - |r|..]
    ensures AllWhitespace(s[..|s| - |r|])
    ensures r == [] || !IsWhitespace(r[0])
  {
    if s != [] && IsWhitespace(s[0]) then TrimStart(s[1..]) else s
  }

  /** Strips trailing whitespace: what is removed is whitespace, and what is left does not end with any. */
  function TrimEnd(s: string): (r: string)
    ensures |r| <= |s| && r == s[..|r|]
    ensures AllWhitespace(s[|r|..])
    ensures r == [] || !IsWhitespace(r[|r| - 1])
  {
    if s != [] && IsWhitespace(s[|s| - 1]) then TrimEnd(s[..|s| - 1]) else s
  }

  /** `String.prototype.trim`: the result is no longer than `s` and neither starts nor ends with whitespace. */
  function Trim(s: string): (r: string)
    ensures |r| <= |s|
    ensures r == [] || (!IsWhitespace(r[0]) && !IsWhitespace(r[|r| - 1]))
  {
    var t := TrimStart(s);
    var r := TrimEnd(t);
    assert r != [] ==> r[0] == t[0];
    r
  }

  /** `TrimStart` removes exactly a leading run of whitespace that is followed by a non-whitespace character or nothing. */
  lemma {:induction false} TrimStartPadded(w: string, t: string)
    requires AllWhitespace(w)
    requires t == [] || !IsWhitespace(t[0])
    ensures TrimStart(w + t) == t
    decreases |w|
  {
    if w != [] {
      assert (w + t)[1..] == w[1..] + t;
      TrimStartPadded(w[1..], t);
    } else {
      assert w + t == t;
    }
  }

  /** `TrimEnd` removes exactly a trailing run of whitespace that follows a non-whitespace character or nothing. */
  lemma {:induction false} TrimEndPadded(t: string, w: string)
    requires AllWhitespace(w)
    requires t == [] || !IsWhitespace(t[|t| - 1])
    ensures TrimEnd(t + w) == t
    decreases |w|
  {
    if w != [] {
      var s := t + w;
      assert s[|s| - 1] == w[|w| - 1];
      assert s[..|s| - 1] == t + w[..|w| - 1];
      TrimEndPadded(t, w[..|w| - 1]);
    } else {
      assert t + w == t;
    }
  }

  /** A string between two runs of whitespace, with no whitespace at either of its own ends, is what `trim` returns. */
  lemma TrimPadded(w1: string, core: string, w2: string)
    requires AllWhitespace(w1) && AllWhitespace(w2)
    requires core == [] || (!IsWhitespace(core[0]) && !IsWhitespace(core[|core| - 1]))
    ensures Trim(w1 + core + w2) == core
  {
    if core == [] {
      var w := w1 + w2;
      assert AllWhitespace(w) by {
        forall i | 0 <= i < |w| ensures IsWhitespace(w[i]) {
          if i < |w1| { assert w[i] == w1[i]; } else { assert w[i] == w2[i - |w1|]; }
        }
      }
      assert w1 + core + w2 == w + [];
      TrimStartPadded(w, []);
    } else {
      assert w1 + core + w2 == w1 + (core + w2);
      TrimStartPadded(w1, core + w2);
      TrimEndPadded(core, w2);
    }
  }

  /** A string that starts and ends with something other than whitespace is unchanged by `trim`. */
  lemma TrimNoPadding(s: string)
    requires s == [] || (!IsWhitespace(s[0]) && !IsWhitespace(s[|s| - 1]))
    ensures Trim(s) == s
  {
    assert [] + s + [] == s;
    TrimPadded([], s, []);
  }

  function DigitValue(c: char): (r: nat)
    requires IsAsciiDigit(c)
    ensures r < 10
  {
    (c as int - '0' as int) as nat
  }

  function DigitChar(d: nat): (c: char)
    requires d < 10
    ensures IsAsciiDigit(c) && DigitValue(c) == d
  {
    ('0' as int + d) as char
  }

  /** `Number(s)` for a string of ASCII digits: its decimal value, below ten to the power of its length. */
  function DigitsValue(s: string): (r: nat)
    requires AllDigits(s)
    ensures r < Pow10(|s|)
  {
    if s == [] then 0
    else
      var front := DigitsValue(s[..|s| - 1]);
      var last := DigitValue(s[|s| - 1]);
      assert front * 10 + last <= (Pow10(|s| - 1) - 1) * 10 + 9;
      front * 10 + last
  }

  /**
   * `String(n)` for a natural number: its shortest decimal form. Reading it back gives `n`, it has
   * no leading zero, and its length is the number of decimal digits of `n`.
   */
  function NatToDecimal(n: nat): (r: string)
    ensures |r| >= 1 && AllDigits(r) && DigitsValue(r) == n
    ensures |r| > 1 ==> r[0] != '0'
    ensures n < Pow10(|r|) && (|r| > 1 ==> Pow10(|r| - 1) <= n)
  {
    if n < 10 then [DigitChar(n)]
    else
      var front := NatToDecimal(n / 10);
      var r := front + [DigitChar(n % 10)];
      assert r[..|r| - 1] == front;
      assert n / 10 < Pow10(|front|);
      assert n < 10 * Pow10(|front|);
      assert |front| > 1 ==> Pow10(|front| - 1) * 10 <= n;
      r
  }

  /** `String(n)` for an integer `n`. */
  function IntToString(n: int): (r: string)
    ensures |r| >= 1 && !IsWhitespace(r[0]) && !IsWhitespace(r[|r| - 1])
    ensures n >= 0 ==> AllDigits(r) && DigitsValue(r) == n
    ensures n < 0 ==> r[0] == '-' && AllDigits(r[1..]) && DigitsValue(r[1..]) == -n
  {
    if n < 0 then
      var d := NatToDecimal(-n);
      var r := "-" + d;
      assert r[1..] == d;
      assert r[|r| - 1] == d[|d| - 1];
      r
    else
      var r := NatToDecimal(n);
      assert IsAsciiDigit(r[0]) && IsAsciiDigit(r[|r| - 1]);
      r
  }

  lemma {:induction false} Pow10Monotone(a: nat, b: nat)
    requires a <= b
    ensures Pow10(a) <= Pow10(b)
    decreases b
  {
    if a < b {
      Pow10Monotone(a, b - 1);
    }
  }

  /** The decimal form of a natural number has four digits exactly when the number is between 1000 and 9999. */
  lemma NatToDecimalFourDigits(n: nat)
    ensures |NatToDecimal(n)| == 4 <==> 1000 <= n <= 9999
  {
    var len := |NatToDecimal(n)|;
    if len <= 3 {
      Pow10Monotone(len, 3);
    } else if len >= 5 {
      Pow10Monotone(4, len - 1);
    }
  }

  /** `String(n)` for an integer is its own trimmed text. */
  lemma IntToStringTrimmed(n: int)
    ensures Trim(IntToString(n)) == IntToString(n)
  {
    TrimNoPadding(IntToString(n));
  }

  /** `String(n)` for an integer is four ASCII digits exactly when `n` has four decimal digits, and then reads back as `n`. */
  lemma IntToStringFourDigits(n: int)
    ensures IsFourDigits(IntToString(n)) <==> 1000 <= n <= 9999
    ensures 1000 <= n <= 9999 ==> DigitsValue(IntToString(n)) == n
  {
    if n < 0 {
      assert !IsAsciiDigit(IntToString(n)[0]);
    } else {
      NatToDecimalFourDigits(n);
    }
  }
}
