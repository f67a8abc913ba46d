/**
 * Strings and bytes as the source manipulates them: decimal numerals (what
 * JavaScript template literals and Python f-strings print for a non-negative
 * integer), substring tests (`String.prototype.includes`) and the UTF-8
 * encoding of ASCII text.
 */
module Text {

  newtype byte = b: int | 0 <= b < 256

  predicate IsDigit(c: char) {
    '0' <= c <= '9'
  }

  predicate AllDigits(s: string) {
    forall i | 0 <= i < |s| :: IsDigit(s[i])
  }

  function DigitChar(d: nat): (c: char)
    requires d < 10
    ensures IsDigit(c) && c as int - '0' as int == d
  {
    ('0' as int + d) as char
  }

  /** The decimal numeral of `n`, without leading zeros. */
  function Decimal(n: nat): (s: string)
    ensures |s| >= 1 && AllDigits(s)
    ensures |s| > 1 ==> s[0] != '0'
    decreases n
  {
    if n < 10 then [DigitChar(n)] else Decimal(n / 10) + [DigitChar(n % 10)]
  }

  function Pow10(k: nat): (p: nat)
    ensures 1 <= p
  {
    if k == 0 then 1 else 10 * Pow10(k - 1)
  }

  /** A number below 10^k prints with at most k digits. */
  lemma {:induction false} DecimalLengthBelow(n: nat, k: nat)
    requires 1 <= k && n < Pow10(k)
    ensures |Decimal(n)| <= k
    decreases k
  {
    if n >= 10 {
      assert k >= 2;
      DecimalLengthBelow(n / 10, k - 1);
    }
  }

  /** The value a string of digits denotes, read most significant digit first. */
  function DigitsValue(s: string): nat
    requires AllDigits(s)
  {
    if s == [] then 0 else DigitsValue(s[..|s| - 1]) * 10 + (s[|s| - 1] as int - '0' as int)
  }

  /** Reading a printed numeral back gives the number that was printed. */
  lemma {:induction false} DecimalRoundTrip(n: nat)
    ensures DigitsValue(Decimal(n)) == n
    decreases n
  {
    if n >= 10 {
      var prefix := Decimal(n / 10);
      DecimalRoundTrip(n / 10);
      assert (prefix + [DigitChar(n % 10)])[..|prefix|] == prefix;
    }
  }

  /** A number of at least 10^k prints with more than k digits. */
  lemma {:induction false} DecimalLengthAbove(n: nat, k: nat)
    requires Pow10(k) <= n
    ensures k < |Decimal(n)|
    decreases k
  {
    if k > 0 {
      DecimalLengthAbove(n / 10, k - 1);
    }
  }

  /** A positive number times a positive one is at least the first. */
  lemma MulAtLeast(m: int, t: int)
    requires 0 < m && 0 < t
    ensures m * t >= m
  {
  }

  /** Remainders are unique: whoever writes n as m·a + c with 0 <= c < m has found n % m. */
  lemma ModUnique(n: int, m: int, a: int, c: int)
    requires 0 < m && 0 <= c < m && n == m * a + c
    ensures n % m == c
  {
    var t := a - n / m;
    assert m * t == n % m - c by {
      assert n == m * (n / m) + n % m;
      assert m * t == m * a - m * (n / m);
    }
    if t > 0 {
      MulAtLeast(m, t);
    } else if t < 0 {
      MulAtLeast(m, -t);
    }
  }

  /** Dividing by 10 then by m, or by 10·m at once, leaves remainders that fit together. */
  lemma ModTen(n: nat, m: nat)
    requires 0 < m
    ensures n % (10 * m) == (n / 10) % m * 10 + n % 10
  {
    var q, r := n / 10, n % 10;
    var a, b := q / m, q % m;
    assert q == m * a + b;
    assert n == (10 * m) * a + (10 * b + r) by {
      assert n == 10 * q + r;
      assert 10 * q == 10 * (m * a) + 10 * b;
      assert 10 * (m * a) == (10 * m) * a;
    }
    ModUnique(n, 10 * m, a, 10 * b + r);
  }

  /** A number below the divisor is its own remainder. */
  lemma ModBelow(n: nat, m: nat)
    requires 0 < m
    ensures n < m ==> n % m == n
  {
  }

  /** Appending a digit shifts the value one place and adds the digit. */
  lemma DigitsValueSnoc(s: string, c: char)
    requires AllDigits(s) && IsDigit(c)
    ensures AllDigits(s + [c])
    ensures DigitsValue(s + [c]) == DigitsValue(s) * 10 + (c as int - '0' as int)
  {
    assert (s + [c])[..|s|] == s;
  }

  /** Taking a suffix commutes with appending an element. */
  lemma SuffixSnoc<T>(p: seq<T>, c: T, j: nat)
    requires j <= |p|
    ensures (p + [c])[j..] == p[j..] + [c]
  {
  }

  /** The last k digits of a numeral denote the number modulo 10^k. */
  lemma {:induction false} DecimalLastDigits(n: nat, k: nat)
    requires k <= |Decimal(n)|
    ensures DigitsValue(Decimal(n)[|Decimal(n)| - k..]) == n % Pow10(k)
    decreases k
  {
    var d := Decimal(n);
    if k == 0 {
      assert d[|d|..] == [];
    } else if n < 10 {
      assert d[|d| - k..] == d;
      assert d == [] + [DigitChar(n)];
      DigitsValueSnoc([], DigitChar(n));
    } else {
      var prefix := Decimal(n / 10);
      var rest := prefix[|prefix| - (k - 1)..];
      var c := DigitChar(n % 10);
      assert d == prefix + [c];
      SuffixSnoc(prefix, c, |prefix| - (k - 1));
      DigitsValueSnoc(rest, c);
      DecimalLastDigits(n / 10, k - 1);
      AppendDigit(n, DigitsValue(rest), Pow10(k - 1));
    }
  }

  /** Appending the last digit of n to the value of n / 10 modulo m gives n modulo 10·m. */
  lemma AppendDigit(n: nat, v: nat, m: nat)
    requires 0 < m && v == n / 10 % m
    ensures v * 10 + (DigitChar(n % 10) as int - '0' as int) == n % (10 * m)
  {
    ModTen(n, m);
  }

  /**
   * The last k characters of the numeral of `n`, all of it when it is
   * shorter (`substr(-k)`): k digits once `n` reaches 10^k, denoting `n`
   * modulo 10^k.
   */
  function LastDigits(n: nat, k: nat): (s: string)
    requires 1 <= k
    ensures AllDigits(s) && 1 <= |s| <= k
    ensures n < Pow10(k) ==> s == Decimal(n)
    ensures Pow10(k) <= n ==> |s| == k
    ensures DigitsValue(s) == n % Pow10(k)
  {
    var digits := Decimal(n);
    if n < Pow10(k) then
      DecimalLengthBelow(n, k);
      DecimalRoundTrip(n);
      ModBelow(n, Pow10(k));
      digits
    else
      DecimalLengthAbove(n, k);
      DecimalLastDigits(n, k);
      digits[|digits| - k..]
  }

  /** Distinct numbers print as distinct numerals. */
  lemma DecimalInjective(a: nat, b: nat)
    ensures Decimal(a) == Decimal(b) ==> a == b
  {
    DecimalRoundTrip(a);
    DecimalRoundTrip(b);
  }

  /**
   * A numeral followed by a non-digit can be split in only one way, so two
   * such texts are equal only when the numbers and the remainders are.
   */
  lemma DecimalDelimited(a: nat, b: nat, x: string, y: string)
    requires x != [] && y != [] && !IsDigit(x[0]) && !IsDigit(y[0])
    requires Decimal(a) + x == Decimal(b) + y
    ensures a == b && x == y
  {
    var da, db := Decimal(a), Decimal(b);
    assert da == (da + x)[..|da|] == (db + y)[..|db|] == db;
    DecimalInjective(a, b);
    assert x == (da + x)[|da|..] == (db + y)[|db|..] == y;
  }

  /** JavaScript's rendering of an integer, negative ones with a leading minus sign. */
  function IntString(i: int): (s: string)
    ensures s != [] && (i < 0 <==> s[0] == '-')
  {
    if i < 0 then "-" + Decimal(-i) else Decimal(i)
  }

  predicate StartsWith(s: string, prefix: string) {
    |prefix| <= |s| && s[..|prefix|] == prefix
  }

  predicate EndsWith(s: string, suffix: string) {
    |suffix| <= |s| && s[|s| - |suffix|..] == suffix
  }

  /** `s.includes(t)`: `t` occurs somewhere in `s`. */
  predicate Contains(s: string, t: string)
    decreases |s|
  {
    StartsWith(s, t) || (|s| > 0 && Contains(s[1..], t))
  }

  predicate IsAscii(s: string) {
    forall i | 0 <= i < |s| :: s[i] < 128 as char
  }

  lemma AsciiConcat(a: string, b: string)
    requires IsAscii(a) && IsAscii(b)
    ensures IsAscii(a + b)
  {
    forall i | 0 <= i < |a + b| ensures (a + b)[i] < 128 as char {
      if i >= |a| {
        assert (a + b)[i] == b[i - |a|];
      }
    }
  }

  lemma AsciiConcat5(a: string, b: string, c: string, d: string, e: string)
    requires IsAscii(a) && IsAscii(b) && IsAscii(c) && IsAscii(d) && IsAscii(e)
    ensures IsAscii(a + b + c + d + e)
  {
    AsciiConcat(a, b);
    AsciiConcat(a + b, c);
    AsciiConcat(a + b + c, d);
    AsciiConcat(a + b + c + d, e);
  }

  /** The UTF-8 encoding of one Unicode scalar value: one to four bytes. */
  function Utf8Char(c: char): (b: seq<byte>)
    ensures 1 <= |b| <= 4
    ensures c < 128 as char ==> b == [c as int as byte]
  {
    var n := c as int;
    if n < 0x80 then [n as byte]
    else if n < 0x800 then [(0xC0 + n / 0x40) as byte, (0x80 + n % 0x40) as byte]
    else if n < 0x1_0000 then
      [(0xE0 + n / 0x1000) as byte, (0x80 + n / 0x40 % 0x40) as byte, (0x80 + n % 0x40) as byte]
    else
      [(0xF0 + n / 0x4_0000) as byte, (0x80 + n / 0x1000 % 0x40) as byte,
       (0x80 + n / 0x40 % 0x40) as byte, (0x80 + n % 0x40) as byte]
  }

  /** `s.encode('utf-8')`: ASCII text keeps one byte per character, with the same code. */
  function Utf8(s: string): (b: seq<byte>)
    ensures |s| <= |b| <= 4 * |s|
    ensures IsAscii(s) ==> |b| == |s| && forall i | 0 <= i < |s| :: b[i] as int == s[i] as int
    decreases |s|
  {
    if s == [] then [] else Utf8(s[..|s| - 1]) + Utf8Char(s[|s| - 1])
  }

  /** One byte per character, holding its code: the encoding of text known to be ASCII. */
  function Ascii(s: string): (b: seq<byte>)
    ensures |b| == |s|
  {
    seq(|s|, k requires 0 <= k < |s| => (s[k] as int % 256) as byte)
  }

  /** On ASCII text the one-byte encoding is the UTF-8 encoding. */
  lemma AsciiIsUtf8(s: string)
    requires IsAscii(s)
    ensures Ascii(s) == Utf8(s)
  {
    var a, u := Ascii(s), Utf8(s);
    forall k | 0 <= k < |s| ensures a[k] == u[k] {
      assert u[k] as int == s[k] as int < 128;
    }
  }

  /** A common prefix can be cancelled. */
  lemma PrefixCancel<T>(p: seq<T>, a: seq<T>, b: seq<T>)
    requires p + a == p + b
    ensures a == b
  {
    assert a == (p + a)[|p|..];
    assert b == (p + b)[|p|..];
  }

  /** Regrouping a concatenation of five pieces. */
  lemma Regroup<T>(a: seq<T>, b: seq<T>, c: seq<T>, d: seq<T>, e: seq<T>)
    ensures (a + b) + c + d + e == a + (b + (c + d + e))
  {
  }
}
