// The few JavaScript string and number primitives the webhook client relies
// on: String.prototype.trim, Number.prototype.toString(radix), parseInt over
// digit strings, and String.prototype.padStart.

module Text {

  /** The characters String.prototype.trim removes: ECMAScript WhiteSpace
      (tab, vertical tab, form feed, space, no-break space, byte-order mark and
      the space separators of category Zs) and LineTerminator (LF, CR, LS, PS). */
  predicate IsWhitespace(c: char) {
    || c == '\t' || c == '\n' || c == '\U{000B}' || c == '\U{000C}' || c == '\r'
    || c == ' ' || c == '\U{00A0}' || c == '\U{1680}'
    || ('\U{2000}' <= c <= '\U{200A}')
    || c == '\U{2028}' || c == '\U{2029}' || c == '\U{202F}' || c == '\U{205F}'
    || c == '\U{3000}' || c == '\U{FEFF}'
  }

  /** A string that trims to nothing. */
  predicate IsBlank(s: string) {
    forall i :: 0 <= i < |s| ==> IsWhitespace(s[i])
  }

  /** Drops the leading whitespace: what is left is a suffix of `s`, what was
      dropped is blank, and what is left does not start with whitespace. */
  function TrimStart(s: string): (r: string)
    ensures |r| <= |s| && r == s[|s| - |r|..]
    ensures IsBlank(s[..|s| - |r|])
    ensures r == [] || !IsWhitespace(r[0])
  {
    if |s| > 0 && IsWhitespace(s[0]) then
      var r := TrimStart(s[1..]);
      assert s[..|s| - |r|] == [s[0]] + s[1..][..|s| - 1 - |r|];
      r
    else s
  }

  /** Drops the trailing whitespace: what is left is a prefix of `s`, what was
      dropped is blank, and what is left does not end with whitespace. */
  function TrimEnd(s: string): (r: string)
    ensures |r| <= |s| && r == s[..|r|]
    ensures IsBlank(s[|r|..])
    ensures r == [] || !IsWhitespace(r[|r| - 1])
  {
    if |s| > 0 && IsWhitespace(s[|s| - 1]) then
      var r := TrimEnd(s[..|s| - 1]);
      assert s[|r|..] == s[..|s| - 1][|r|..] + [s[|s| - 1]];
      r
    else s
  }

  /** `r` is what is left of `s` once a blank start and a blank end are
      cut off. */
  ghost predicate TrimsTo(s: string, r: string) {
    exists i, j :: 0 <= i <= j <= |s| && r == s[i..j] && IsBlank(s[..i]) && IsBlank(s[j..])
  }

  /** String.prototype.trim: `s` with a blank start and a blank end cut off;
      empty exactly for blank strings, and otherwise neither starting nor
      ending with whitespace. */
  function Trim(s: string): (r: string)
    ensures TrimsTo(s, r)
    ensures r == [] <==> IsBlank(s)
    ensures r != [] ==> !IsWhitespace(r[0]) && !IsWhitespace(r[|r| - 1])
    ensures |r| <= |s|
  {
    TrimEmptyWhenBlank(s);
    TrimIsSlice(s);
    TrimEndsNotBlank(s);
    TrimEnd(TrimStart(s))
  }

  /** Trimming both ends leaves nothing exactly for a blank string. */
  lemma TrimEmptyWhenBlank(s: string)
    ensures TrimEnd(TrimStart(s)) == [] <==> IsBlank(s)
  {
    var t := TrimStart(s);
    assert t == [] ==> IsBlank(s) by {
      if t == [] { assert s[..|s|] == s; }
    }
    assert t != [] ==> !IsBlank(s) by {
      if t != [] { assert s[|s| - |t|] == t[0]; }
    }
    var r := TrimEnd(t);
    assert r == [] ==> IsBlank(t) by {
      if r == [] { assert t[0..] == t; }
    }
    assert t != [] ==> !IsBlank(t) by {
      if t != [] { assert !IsWhitespace(t[0]); }
    }
  }

  /** Trimming both ends keeps the piece of `s` between two blank ends. */
  lemma TrimIsSlice(s: string)
    ensures TrimsTo(s, TrimEnd(TrimStart(s)))
  {
    PieceBetweenBlanks(s, TrimStart(s), TrimEnd(TrimStart(s)));
  }

  /** A prefix `r` of a suffix `t` of `s`, each cut at blank text, is what
      is left of `s` between a blank start and a blank end. */
  lemma PieceBetweenBlanks(s: string, t: string, r: string)
    requires |t| <= |s| && t == s[|s| - |t|..] && IsBlank(s[..|s| - |t|])
    requires |r| <= |t| && r == t[..|r|] && IsBlank(t[|r|..])
    ensures TrimsTo(s, r)
  {
    var i := |s| - |t|;
    var j := i + |r|;
    assert r == s[i..j];
    assert s[j..] == t[|r|..];
  }

  /** What trimming both ends leaves starts and ends with non-whitespace. */
  lemma TrimEndsNotBlank(s: string)
    ensures var r := TrimEnd(TrimStart(s));
            r != [] ==> !IsWhitespace(r[0]) && !IsWhitespace(r[|r| - 1])
  {
    var t := TrimStart(s);
    var r := TrimEnd(t);
    if r != [] {
      assert r[0] == t[0];
    }
  }

  /** The digit characters Number.prototype.toString writes, in lower case. */
  const DigitChars: string := "0123456789abcdef"

  function DigitChar(d: nat): (c: char)
    requires d < 16
    ensures IsHexDigit(c) && DigitValue(c) == d
  {
    DigitChars[d]
  }

  /** The characters parseInt accepts as digits in base 16 (either case). */
  predicate IsHexDigit(c: char) {
    ('0' <= c <= '9') || ('a' <= c <= 'f') || ('A' <= c <= 'F')
  }

  /** The value parseInt gives a digit character. */
  function DigitValue(c: char): (d: nat)
    requires IsHexDigit(c)
    ensures d < 16
    ensures ('0' <= c <= '9') <==> d < 10
  {
    if '0' <= c <= '9' then c as int - '0' as int
    else if 'a' <= c <= 'f' then c as int - 'a' as int + 10
    else c as int - 'A' as int + 10
  }

  /** Every character of `s` is a digit of base `base`. */
  predicate IsDigitString(s: string, base: nat) {
    forall i :: 0 <= i < |s| ==> IsHexDigit(s[i]) && DigitValue(s[i]) < base
  }

  function Pow(b: nat, k: nat): nat {
    if k == 0 then 1 else Pow(b, k - 1) * b
  }

  /** Number.prototype.toString(base) of a non-negative integer: digits of
      `base` only, and no leading zero unless the number is 0. */
  function ToBase(n: nat, base: nat): (r: string)
    requires 2 <= base <= 16
    ensures |r| >= 1 && IsDigitString(r, base)
    ensures r[0] != '0' || |r| == 1
    decreases n
  {
    if n < base then [DigitChar(n)] else ToBase(n / base, base) + [DigitChar(n % base)]
  }

  /** The value of a digit string in base `base`, most significant digit first
      (parseInt on a string made of digits only). It fits in |s| digits. */
  function FromDigits(s: string, base: nat): (v: nat)
    requires 2 <= base <= 16 && IsDigitString(s, base)
    ensures v < Pow(base, |s|)
  {
    if s == [] then 0
    else
      var p := s[..|s| - 1];
      var w := FromDigits(p, base);
      var d := DigitValue(s[|s| - 1]);
      var P := Pow(base, |p|);
      assert Pow(base, |s|) == P * base;
      ShiftedDigitBound(w, d, base, P);
      assert w * base >= 0 by { NonNegativeProduct(w, base); }
      w * base + d
  }

  /** Appending a digit to a number below `p` gives a number below p * base. */
  lemma ShiftedDigitBound(v: nat, d: nat, base: nat, p: nat)
    requires v < p && d < base
    ensures v * base + d < p * base
  {
    var k := p - v;
    MulDistributes(v, k, base);
    MulAtLeast(k, base);
  }

  // Facts of multiplication and division the solver needs spelled out as
  // separate steps: each holds by itself, and the proofs above and below
  // call them to keep nonlinear arithmetic out of their own obligations.

  lemma MulDistributes(a: int, b: int, c: int)
    ensures (a + b) * c == a * c + b * c
  {
  }

  lemma MulAssociates(a: int, b: int, c: int)
    ensures (a * b) * c == a * (b * c)
  {
  }

  lemma NonNegativeProduct(a: nat, b: nat)
    ensures a * b >= 0
  {
  }

  /** Euclid's division by a base: the quotient is smaller than a number that
      is at least the base, and quotient and remainder rebuild the number. */
  lemma DivMod(n: nat, b: nat)
    requires 2 <= b <= n
    ensures n / b < n && (n / b) * b + n % b == n
  {
  }

  lemma PositiveFactor(a: int, b: int)
    requires b > 0 && a * b > 0
    ensures a > 0
  {
  }

  lemma MulAtLeast(k: int, b: int)
    requires k >= 1 && b >= 0
    ensures k * b >= b
  {
    assert (k - 1) * b >= 0;
  }

  /** A number below p * b has a quotient by b below p. */
  lemma DivBelow(n: nat, b: nat, p: nat)
    requires b >= 1 && n < p * b
    ensures n / b < p
  {
    var q := n / b;
    assert q * b <= n;
    MulDistributes(q, p - q, b);
    PositiveFactor(p - q, b);
  }

  /** Reading back what toString wrote gives the number. */
  lemma {:induction false} FromToBase(n: nat, base: nat)
    requires 2 <= base <= 16
    ensures FromDigits(ToBase(n, base), base) == n
    decreases n
  {
    var r := ToBase(n, base);
    if n < base {
      assert r[..0] == [];
      assert FromDigits(r, base) == 0 * base + n;
    } else {
      var t := ToBase(n / base, base);
      assert r[..|r| - 1] == t;
      assert DigitValue(r[|r| - 1]) == n % base;
      DivMod(n, base);
      FromToBase(n / base, base);
      assert FromDigits(r, base) == (n / base) * base + n % base;
    }
  }

  /** toString(base) never writes the same text for two numbers. */
  lemma ToBaseInjective(m: nat, n: nat, base: nat)
    requires 2 <= base <= 16
    ensures ToBase(m, base) == ToBase(n, base) ==> m == n
  {
    FromToBase(m, base);
    FromToBase(n, base);
  }

  /** The written length of a number below base^k is at most k. */
  lemma {:induction false} ToBaseLength(n: nat, base: nat, k: nat)
    requires 2 <= base <= 16 && 1 <= k && n < Pow(base, k)
    ensures |ToBase(n, base)| <= k
    decreases n
  {
    if n >= base {
      assert k >= 2 by { assert Pow(base, 1) == base; }
      DivBelow(n, base, Pow(base, k - 1));
      DivMod(n, base);
      ToBaseLength(n / base, base, k - 1);
    }
  }

  /** Value of a concatenation of two digit strings. */
  lemma {:induction false} FromDigitsAppend(a: string, b: string, base: nat)
    requires 2 <= base <= 16 && IsDigitString(a, base) && IsDigitString(b, base)
    ensures IsDigitString(a + b, base)
    ensures FromDigits(a + b, base) == FromDigits(a, base) * Pow(base, |b|) + FromDigits(b, base)
    decreases |b|
  {
    var ab := a + b;
    assert IsDigitString(ab, base) by {
      forall i | 0 <= i < |ab| ensures IsHexDigit(ab[i]) && DigitValue(ab[i]) < base {
        if i < |a| { assert ab[i] == a[i]; } else { assert ab[i] == b[i - |a|]; }
      }
    }
    if b == [] {
      assert ab == a;
    } else {
      var b' := b[..|b| - 1];
      assert ab[..|ab| - 1] == a + b';
      FromDigitsAppend(a, b', base);
      var A, B' := FromDigits(a, base), FromDigits(b', base);
      var d := DigitValue(b[|b| - 1]);
      assert b[..|b| - 1] == b';
      calc {
        FromDigits(ab, base);
        (A * Pow(base, |b'|) + B') * base + d;
        { MulDistributes(A * Pow(base, |b'|), B', base); }
        (A * Pow(base, |b'|)) * base + B' * base + d;
        { MulAssociates(A, Pow(base, |b'|), base); }
        A * Pow(base, |b|) + FromDigits(b, base);
      }
    }
  }

  /** `k` copies of `c`. */
  function Repeat(c: char, k: nat): (r: string)
    ensures |r| == k && forall i :: 0 <= i < k ==> r[i] == c
  {
    if k == 0 then [] else [c] + Repeat(c, k - 1)
  }

  /** Leading zeros do not change a digit string's value. */
  lemma {:induction false} FromDigitsLeadingZeros(k: nat, s: string, base: nat)
    requires 2 <= base <= 16 && IsDigitString(s, base)
    ensures IsDigitString(Repeat('0', k) + s, base)
    ensures FromDigits(Repeat('0', k) + s, base) == FromDigits(s, base)
    decreases k
  {
    var z := Repeat('0', k);
    assert IsDigitString(z, base);
    FromDigitsAppend(z, s, base);
    FromDigitsOfZeros(k, base);
  }

  lemma {:induction false} FromDigitsOfZeros(k: nat, base: nat)
    requires 2 <= base <= 16
    ensures IsDigitString(Repeat('0', k), base) && FromDigits(Repeat('0', k), base) == 0
    decreases k
  {
    if k > 0 {
      var z := Repeat('0', k);
      assert z[..k - 1] == Repeat('0', k - 1);
      FromDigitsOfZeros(k - 1, base);
    }
  }

  /** String.prototype.padStart with a one-character filler: the result is
      at least `len` long and ends with `s`, preceded only by the filler. */
  function PadStart(s: string, len: nat, fill: char): (r: string)
    ensures |r| == if |s| >= len then |s| else len
    ensures r[|r| - |s|..] == s
    ensures r[..|r| - |s|] == Repeat(fill, |r| - |s|)
  {
    if |s| >= len then s else Repeat(fill, len - |s|) + s
  }

  /** Padding a digit string with '0' keeps its value. */
  lemma PadStartZerosValue(s: string, len: nat, base: nat)
    requires 2 <= base <= 16 && IsDigitString(s, base)
    ensures IsDigitString(PadStart(s, len, '0'), base)
    ensures FromDigits(PadStart(s, len, '0'), base) == FromDigits(s, base)
  {
    var r := PadStart(s, len, '0');
    assert r == Repeat('0', |r| - |s|) + s by {
      assert r == r[..|r| - |s|] + r[|r| - |s|..];
    }
    FromDigitsLeadingZeros(|r| - |s|, s, base);
  }
}
