/**
 * `format!("0x{:x}", n)` for an `i64` n: "0x" followed by n's lowercase
 * hexadecimal digits without leading zeros. For a negative n Rust formats
 * the two's-complement bit pattern, that is, the digits of n + 2^64.
 */
module HexFormat {
  import opened Values

  const TwoTo64: int := 0x1_0000_0000_0000_0000

  /** The value `{:x}` prints for an i64: the number itself, or its u64 bit pattern when negative. */
  function BitPattern(n: i64): (u: nat)
    ensures u < TwoTo64
    ensures n >= 0 ==> u == n as int
    ensures n < 0 ==> u == n as int + TwoTo64
  {
    if n < 0 then n as int + TwoTo64 else n as int
  }

  predicate IsHexDigit(c: char)
  {
    '0' <= c <= '9' || 'a' <= c <= 'f'
  }

  predicate AllHexDigits(s: string)
  {
    forall i :: 0 <= i < |s| ==> IsHexDigit(s[i])
  }

  /** The lowercase digit for 0..15. */
  function Digit(d: nat): (c: char)
    requires d < 16
    ensures IsHexDigit(c)
  {
    "0123456789abcdef"[d]
  }

  /** The value of one lowercase hex digit. */
  function DigitValue(c: char): (d: nat)
    requires IsHexDigit(c)
    ensures d < 16
  {
    if c <= '9' then (c - '0') as nat else (c - 'a') as nat + 10
  }

  lemma DigitRoundTrip(d: nat)
    requires d < 16
    ensures DigitValue(Digit(d)) == d
  {
  }

  lemma DigitValueRoundTrip(c: char)
    requires IsHexDigit(c)
    ensures Digit(DigitValue(c)) == c
  {
  }

  /** Base-16 digits of n, most significant first, with no leading zeros. */
  function Digits(n: nat): (s: string)
    ensures |s| >= 1 && AllHexDigits(s)
    decreases n
  {
    if n < 16 then [Digit(n)] else Digits(n / 16) + [Digit(n % 16)]
  }

  /** A string of lowercase hex digits read as a base-16 number. */
  function ParseDigits(s: string): nat
    requires AllHexDigits(s)
  {
    if s == [] then 0 else 16 * ParseDigits(s[..|s| - 1]) + DigitValue(s[|s| - 1])
  }

  /** Non-empty lowercase hex without leading zeros: the only shape `{:x}` produces. */
  predicate Canonical(s: string)
  {
    |s| >= 1 && AllHexDigits(s) && (s[0] == '0' ==> |s| == 1)
  }

  /** The tag for an i64. */
  function HexTag(n: i64): (r: string)
    ensures |r| >= 3 && r[..2] == "0x" && AllHexDigits(r[2..])
  {
    "0x" + Digits(BitPattern(n))
  }

  // ----- Properties ----------------------------------------------------------

  /** The digits are canonical: a leading zero occurs only for n == 0, whose digits are "0". */
  lemma {:induction false} DigitsCanonical(n: nat)
    ensures Canonical(Digits(n))
    ensures Digits(n)[0] == '0' <==> n == 0
  {
    if n >= 16 {
      DigitsCanonical(n / 16);
      assert Digits(n)[0] == Digits(n / 16)[0];
    }
  }

  /** Reading the digits back gives n. */
  lemma {:induction false} ParseDigitsOfDigits(n: nat)
    ensures ParseDigits(Digits(n)) == n
  {
    var s := Digits(n);
    if n < 16 {
      assert s[..0] == [];
      DigitRoundTrip(n);
    } else {
      assert s[..|s| - 1] == Digits(n / 16);
      DigitRoundTrip(n % 16);
      ParseDigitsOfDigits(n / 16);
    }
  }

  lemma {:induction false} ParseDigitsZero(s: string)
    requires AllHexDigits(s) && |s| >= 1 && s[0] != '0'
    ensures ParseDigits(s) > 0
  {
    if |s| > 1 {
      ParseDigitsZero(s[..|s| - 1]);
    } else {
      assert s == [s[0]];
    }
  }

  /** Conversely, a canonical digit string is what Digits prints for its value. */
  lemma {:induction false} DigitsOfParseDigits(s: string)
    requires Canonical(s)
    ensures Digits(ParseDigits(s)) == s
  {
    var n := ParseDigits(s);
    var last := s[|s| - 1];
    if |s| == 1 {
      assert s[..0] == [];
      DigitValueRoundTrip(last);
      assert s == [last];
    } else {
      var p := s[..|s| - 1];
      assert p[0] == s[0];
      ParseDigitsZero(p);
      DigitsOfParseDigits(p);
      DigitValueRoundTrip(last);
      assert n / 16 == ParseDigits(p) && n % 16 == DigitValue(last);
      assert s == p + [last];
    }
  }

  /** n < 16^k has at most k digits. */
  lemma {:induction false} DigitsLength(n: nat, k: nat, bound: nat)
    requires bound == Pow16(k) && n < bound
    ensures |Digits(n)| <= if k == 0 then 1 else k
  {
    if n >= 16 {
      assert n / 16 < Pow16(k - 1);
      DigitsLength(n / 16, k - 1, Pow16(k - 1));
    }
  }

  function Pow16(k: nat): (p: nat)
    ensures p >= 1
  {
    if k == 0 then 1 else 16 * Pow16(k - 1)
  }

  /** The tag is "0x" then at most 16 canonical digits, which read back as the i64's bit pattern. */
  lemma HexTagShape(n: i64)
    ensures HexTag(n)[..2] == "0x"
    ensures 3 <= |HexTag(n)| <= 18
    ensures Canonical(HexTag(n)[2..])
    ensures ParseDigits(HexTag(n)[2..]) == BitPattern(n)
    ensures n >= 0 ==> ParseDigits(HexTag(n)[2..]) == n as int
  {
    var u := BitPattern(n);
    assert HexTag(n)[2..] == Digits(u);
    DigitsCanonical(u);
    ParseDigitsOfDigits(u);
    Pow16Of16();
    DigitsLength(u, 16, Pow16(16));
  }

  lemma {:induction false} Pow16Add(a: nat, b: nat)
    ensures Pow16(a + b) == Pow16(a) * Pow16(b)
  {
    if a > 0 {
      Pow16Add(a - 1, b);
    }
  }

  /** Two distinct values get distinct tags. */
  lemma HexTagInjective(m: i64, n: i64)
    requires HexTag(m) == HexTag(n)
    ensures m == n
  {
    HexTagShape(m);
    HexTagShape(n);
  }

  /** Appending one digit to a non-zero number appends its digit character. */
  lemma DigitsAppend(n: nat, d: nat)
    requires n >= 1 && d < 16
    ensures Digits(16 * n + d) == Digits(n) + [Digit(d)]
  {
    assert (16 * n + d) / 16 == n && (16 * n + d) % 16 == d;
  }

  /** The largest k-digit number, 16^k - 1, prints as k letters 'f'. */
  lemma {:induction false} AllFs(k: nat, n: nat)
    requires k >= 1 && n + 1 == Pow16(k)
    ensures Digits(n) == seq(k, _ => 'f')
  {
    if k > 1 {
      var m := Pow16(k - 1) - 1;
      assert Pow16(k - 1) == 16 * Pow16(k - 2);
      assert n == 16 * m + 15;
      AllFs(k - 1, m);
      DigitsAppend(m, 15);
      var fs := seq(k - 1, _ => 'f');
      assert seq(k, _ => 'f') == fs + ['f'];
    }
  }

  lemma Pow16Of16()
    ensures Pow16(16) == TwoTo64
  {
    assert Pow16(4) == 0x1_0000;
    Pow16Add(4, 4);
    Pow16Add(8, 8);
  }

  /** 0 prints as "0x0" and 255 as "0xff". */
  lemma HexTagExamples()
    ensures HexTag(0) == "0x0"
    ensures HexTag(255) == "0xff"
  {
    DigitsAppend(15, 15);
  }

  /** -1 prints as its 64-bit two's-complement pattern, sixteen 'f's. */
  lemma HexTagOfMinusOne()
    ensures HexTag(-1) == "0xffffffffffffffff"
  {
    Pow16Of16();
    AllFs(16, TwoTo64 - 1);
    SixteenFs();
  }

  lemma SixteenFs()
    ensures seq(16, _ => 'f') == "ffffffffffffffff"
  {
  }
}
