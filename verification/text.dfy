/**
 * The bits of string handling the workout model needs: the decimal text of a
 * natural number (what `n + ''` gives in JavaScript for a timestamp or a day of
 * the month), its parse back, upper-casing the first letter of a word, and the
 * search for the first space.
 */
module Text {
  import opened Wrappers

  predicate IsDigit(c: char) {
    '0' <= c <= '9'
  }

  predicate AllDigits(s: string) {
    forall i | 0 <= i < |s| :: IsDigit(s[i])
  }

  function DigitChar(d: nat): char
    requires d < 10
  {
    ('0' as int + d) as char
  }

  function DigitValue(c: char): nat
    requires IsDigit(c)
  {
    c as int - '0' as int
  }

  /** Decimal text of `n`, most significant digit first, without leading zeros. */
  function DecimalString(n: nat): (s: string)
    ensures s != [] && AllDigits(s)
    ensures s[0] == '0' ==> s == "0"
    decreases n
  {
    if n < 10 then [DigitChar(n)] else DecimalString(n / 10) + [DigitChar(n % 10)]
  }

  /** The number a string of decimal digits denotes. */
  function DigitsValue(s: string): nat
    requires AllDigits(s)
  {
    if s == [] then 0 else 10 * DigitsValue(s[..|s| - 1]) + DigitValue(s[|s| - 1])
  }

  /** Reads a non-empty string of decimal digits; anything else is `None`. */
  function ParseDecimal(s: string): Option<nat> {
    if s != [] && AllDigits(s) then Some(DigitsValue(s)) else None
  }

  lemma {:induction false} DigitsValueOfDecimal(n: nat)
    ensures DigitsValue(DecimalString(n)) == n
    decreases n
  {
    var s := DecimalString(n);
    if n >= 10 {
      DigitsValueOfDecimal(n / 10);
      assert s[..|s| - 1] == DecimalString(n / 10);
    }
  }

  /** Reading back the decimal text of a number gives the number. */
  lemma {:induction false} ParseDecimalString(n: nat)
    ensures ParseDecimal(DecimalString(n)) == Some(n)
  {
    DigitsValueOfDecimal(n);
  }

  /** Ten to the power `k`. */
  function Pow10(k: nat): (p: nat)
    ensures p > 0
  {
    if k == 0 then 1 else 10 * Pow10(k - 1)
  }

  lemma ModUnique(n: nat, m: nat, a: nat, c: nat)
    requires m > 0 && n == m * a + c && c < m
    ensures n % m == c
  {
    var a2, c2 := n / m, n % m;
    assert m * a + c == m * a2 + c2;
    if a2 > a {
      assert m * (a2 - a) == c - c2;
      AtLeastOnce(m, a2 - a);
    } else if a2 < a {
      assert m * (a - a2) == c2 - c;
      AtLeastOnce(m, a - a2);
    }
  }

  lemma AtLeastOnce(m: nat, k: nat)
    requires k >= 1
    ensures m * k >= m
  {
    assert m * k == m * (k - 1) + m;
  }

  /** Dropping the last decimal digit and taking the rest modulo `p`. */
  lemma ModTen(n: nat, p: nat)
    requires p > 0
    ensures n % (10 * p) == 10 * ((n / 10) % p) + n % 10
  {
    var q, r := n / 10, n % 10;
    var a, b := q / p, q % p;
    assert n == 10 * q + r;
    assert q == p * a + b;
    assert n == (10 * p) * a + (10 * b + r);
    ModUnique(n, 10 * p, a, 10 * b + r);
  }

  lemma SuffixOfDigits(text: string, k: nat)
    requires AllDigits(text) && k <= |text|
    ensures AllDigits(text[k..])
  {
  }

  /** The last `k` digits of the decimal text of `n` denote `n` modulo ten to the `k`. */
  lemma {:induction false} DecimalSuffixValue(n: nat, k: nat)
    requires k <= |DecimalString(n)|
    ensures AllDigits(DecimalString(n)[|DecimalString(n)| - k..])
    ensures DigitsValue(DecimalString(n)[|DecimalString(n)| - k..]) == n % Pow10(k)
    decreases n
  {
    var s := DecimalString(n);
    var t := s[|s| - k..];
    SuffixOfDigits(s, |s| - k);
    if k == 0 {
      assert t == [];
    } else if n < 10 {
      assert t == s;
    } else {
      var front := DecimalString(n / 10);
      assert s == front + [DigitChar(n % 10)];
      DecimalSuffixValue(n / 10, k - 1);
      assert t[..|t| - 1] == front[|front| - (k - 1)..];
      assert t[|t| - 1] == DigitChar(n % 10);
      ModTen(n, Pow10(k - 1));
    }
  }

  /** A number is below ten to the power of the length of its decimal text. */
  lemma {:induction false} DecimalStringBound(n: nat)
    ensures n < Pow10(|DecimalString(n)|)
    decreases n
  {
    if n >= 10 {
      DecimalStringBound(n / 10);
    }
  }

  /** `toUpperCase` restricted to one character; only ASCII letters change. */
  function UpperChar(c: char): char {
    if 'a' <= c <= 'z' then (c as int - 32) as char else c
  }

  /** The word with its first character upper-cased and the rest unchanged. */
  function Capitalised(s: string): (r: string)
    ensures |r| == |s|
    ensures s != [] ==> r[0] == UpperChar(s[0]) && r[1..] == s[1..]
  {
    if s == [] then [] else [UpperChar(s[0])] + s[1..]
  }

  /** Index of the first space in `s`, if any. */
  function IndexOfSpace(s: string): (r: Option<nat>)
    ensures r.Some? ==> r.value < |s| && s[r.value] == ' ' && ' ' !in s[..r.value]
    ensures r.None? ==> ' ' !in s
  {
    if s == [] then None
    else if s[0] == ' ' then Some(0)
    else match IndexOfSpace(s[1..])
      case None => None
      case Some(i) => assert s[..i + 1] == [s[0]] + s[1..][..i]; Some(i + 1)
  }

  /** The first space after a word without spaces is the one that follows it. */
  lemma {:induction false} IndexOfSpaceAfterWord(word: string, rest: string)
    requires ' ' !in word
    ensures IndexOfSpace(word + " " + rest) == Some(|word|)
  {
    var s := word + " " + rest;
    assert s[|word|] == ' ';
    assert s[..|word|] == word;
  }
}
