/** Small shared vocabulary: optional values, bytes, the C character classes
    the daemon relies on (isspace, tolower, strcasecmp), decimal rendering as
    printf's %d and %02d produce it, and C's atoi. */
module Basics {

  datatype Option<T> = None | Some(value: T)

  /** One raw byte of an audio buffer. */
  type byte = x: int | 0 <= x < 256

  /** isspace() in the C locale. */
  function IsSpace(c: char): (b: bool)
    ensures b <==> c == ' ' || 9 <= c as int <= 13
  {
    c == ' ' || c == '\t' || c == '\n' || c == '\U{B}' || c == '\U{C}' || c == '\r'
  }

  /** tolower() in the C locale: only ASCII upper-case letters change. */
  function ToLower(c: char): (r: char)
    ensures 'A' <= c <= 'Z' ==> 'a' <= r <= 'z' && r as int - c as int == 32
    ensures !('A' <= c <= 'Z') ==> r == c
  {
    if 'A' <= c <= 'Z' then (c as int + 32) as char else c
  }

  /** strcasecmp(a, b) == 0 for strings without NUL characters. */
  function EqualsIgnoreCase(a: string, b: string): (r: bool)
    ensures a == b ==> r
    ensures r ==> |a| == |b|
    ensures r ==> forall i :: 0 <= i < |a| ==> a[i] == b[i] || 'A' <= a[i] <= 'Z' || 'a' <= a[i] <= 'z'
  {
    |a| == |b| && forall i :: 0 <= i < |a| ==> ToLower(a[i]) == ToLower(b[i])
  }

  predicate IsDigit(c: char) { '0' <= c <= '9' }

  function DigitChar(d: nat): (c: char)
    requires d < 10
    ensures IsDigit(c) && c as int - '0' as int == d
  {
    ('0' as int + d) as char
  }

  /** The text printf("%d") gives for a non-negative value. */
  function Decimal(n: nat): (s: string)
    ensures |s| >= 1 && forall i :: 0 <= i < |s| ==> IsDigit(s[i])
    ensures n < 10 <==> |s| == 1
  {
    if n < 10 then [DigitChar(n)] else Decimal(n / 10) + [DigitChar(n % 10)]
  }

  function DigitValue(c: char): (d: nat)
    requires IsDigit(c)
    ensures d < 10 && DigitChar(d) == c
  {
    c as int - '0' as int
  }

  /** The value of a string of decimal digits (most significant first). */
  function DigitsValue(s: string): nat
    requires forall i :: 0 <= i < |s| ==> IsDigit(s[i])
  {
    if s == [] then 0 else DigitsValue(s[..|s| - 1]) * 10 + DigitValue(s[|s| - 1])
  }

  /** Reading back what Decimal renders gives the number again. */
  lemma {:induction false} DecimalRoundTrip(n: nat)
    ensures DigitsValue(Decimal(n)) == n
  {
    if n >= 10 {
      var s := Decimal(n);
      assert s[..|s| - 1] == Decimal(n / 10);
      DecimalRoundTrip(n / 10);
    }
  }

  /** printf("%02d") for a non-negative value: at least two digits, zero padded. */
  function Pad2(n: nat): (s: string)
    ensures |s| >= 2 && forall i :: 0 <= i < |s| ==> IsDigit(s[i])
    ensures n < 100 ==> |s| == 2
    ensures DigitsValue(s) == n
  {
    DecimalRoundTrip(n);
    if n < 10 then
      var s := "0" + Decimal(n);
      assert s[..|s| - 1] == "0";
      s
    else Decimal(n)
  }

  /** The longest prefix of s made of decimal digits. */
  function LeadingDigits(s: string): (d: string)
    ensures d <= s && forall i :: 0 <= i < |d| ==> IsDigit(s[i])
    ensures |d| < |s| ==> !IsDigit(s[|d|])
  {
    if s != [] && IsDigit(s[0]) then [s[0]] + LeadingDigits(s[1..]) else []
  }

  /** s without its leading isspace() characters. */
  function DropSpace(s: string): (t: string)
    ensures |t| <= |s| && t == s[|s| - |t|..]
    ensures t != [] ==> !IsSpace(t[0])
    ensures forall i :: 0 <= i < |s| - |t| ==> IsSpace(s[i])
  {
    if s != [] && IsSpace(s[0]) then DropSpace(s[1..]) else s
  }

  /** C's atoi: leading white space, an optional sign, then the longest run of
      digits; anything after it is ignored and no digits give 0. */
  function Atoi(s: string): (r: int)
    ensures DropSpace(s) == [] ==> r == 0
    ensures r < 0 ==> DropSpace(s)[0] == '-'
  {
    var t := DropSpace(s);
    if t != [] && t[0] == '-' then -(DigitsValue(LeadingDigits(t[1..])) as int)
    else if t != [] && t[0] == '+' then DigitsValue(LeadingDigits(t[1..]))
    else DigitsValue(LeadingDigits(t))
  }

  lemma LeadingDigitsOfDigits(s: string)
    requires forall i :: 0 <= i < |s| ==> IsDigit(s[i])
    ensures LeadingDigits(s) == s
  {
  }

  lemma AtoiUnsigned(s: string)
    requires |s| >= 1 && forall i :: 0 <= i < |s| ==> IsDigit(s[i])
    ensures Atoi(s) == DigitsValue(s)
  {
    LeadingDigitsOfDigits(s);
    assert !IsSpace(s[0]) && DropSpace(s) == s;
  }

  lemma AtoiSigned(sign: char, s: string)
    requires sign == '-' || sign == '+'
    requires |s| >= 1 && forall i :: 0 <= i < |s| ==> IsDigit(s[i])
    ensures Atoi([sign] + s) == if sign == '-' then -(DigitsValue(s) as int) else DigitsValue(s)
  {
    LeadingDigitsOfDigits(s);
    var m := [sign] + s;
    assert m[0] == sign && !IsSpace(m[0]) && m[1..] == s;
    assert DropSpace(m) == m;
    assert DigitsValue(LeadingDigits(m[1..])) == DigitsValue(s);
  }

  /** atoi reads back the decimal text of any integer, with or without a sign. */
  lemma AtoiDecimal(n: nat)
    ensures Atoi(Decimal(n)) == n
    ensures Atoi("-" + Decimal(n)) == -(n as int)
    ensures Atoi("+" + Decimal(n)) == n
  {
    DecimalRoundTrip(n);
    AtoiUnsigned(Decimal(n));
    AtoiSigned('-', Decimal(n));
    AtoiSigned('+', Decimal(n));
  }

  /** Multiplying by a non-negative factor keeps an ordering. */
  lemma MulMono(a: int, b: int, w: nat)
    requires a <= b
    ensures a * w <= b * w
  {
    assert b * w - a * w == (b - a) * w;
  }

  /** Appending one element after a concatenation extends its right part. */
  lemma AppendOne<T>(a: seq<T>, b: seq<T>, x: T)
    ensures (a + b) + [x] == a + (b + [x])
  {
  }

  /** Concatenation is associative. */
  lemma ConcatAssoc<T>(a: seq<T>, b: seq<T>, c: seq<T>)
    ensures (a + b) + c == a + (b + c)
  {
  }

  /** Quotient and remainder are the only ones: x = q*m + r with 0 <= r < m. */
  lemma DivModUnique(x: int, m: int, q: int, r: int)
    requires m >= 1 && 0 <= r < m && x == q * m + r
    ensures x / m == q && x % m == r
  {
    var q', r' := x / m, x % m;
    assert (q - q') * m == r' - r;
    assert (q' - q) * m == r - r';
    MulSign(q - q', m);
    MulSign(q' - q, m);
  }

  /** The remainder of x + 1 is one more than that of x, wrapping to zero
      at m, when the quotient goes up by one. */
  lemma DivModNext(x: int, m: int)
    requires m >= 1
    ensures var q, r := x / m, x % m;
      && (r + 1 == m ==> (x + 1) / m == q + 1 && (x + 1) % m == 0)
      && (r + 1 != m ==> (x + 1) / m == q && (x + 1) % m == r + 1)
  {
    var q, r := x / m, x % m;
    if r + 1 == m {
      assert (q + 1) * m == q * m + m;
      DivModUnique(x + 1, m, q + 1, 0);
    } else {
      DivModUnique(x + 1, m, q, r + 1);
    }
  }

  /** A non-zero factor times a positive one is not zero. */
  lemma MulNonZero(a: int, b: int)
    requires a != 0 && b >= 1
    ensures a * b != 0
  {
    if a > 0 {
      MulSign(b, a);
    } else {
      MulSign(b, -a);
      assert a * b == -(b * -a);
    }
  }

  /** A multiple of m by a factor of at least one is at least m. */
  lemma MulSign(d: int, m: int)
    requires m >= 1
    ensures d >= 1 ==> d * m >= m
  {
    if d >= 1 {
      assert d * m == (d - 1) * m + m;
      assert (d - 1) * m >= 0;
    }
  }
}
