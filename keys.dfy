/**
 * Key formatting shared by the four generators: Python's `str(n)` of a
 * non-negative integer, `str.zfill(width)` on such a digit string, and the
 * record keys built as a fixed prefix followed by a zero-padded counter
 * (`f"V{str(i+1).zfill(5)}"`, `f"45{str(i+1).zfill(8)}"`, ...).
 *
 * Every key format is paired with a reader (`ValueOf`, `KeyCounter`), and the
 * round-trip lemmas give injectivity: distinct counters give distinct keys.
 */
module Keys {

  predicate IsDigit(c: char) { '0' <= c <= '9' }

  predicate AllDigits(s: string) {
    forall i :: 0 <= i < |s| ==> IsDigit(s[i])
  }

  /** The decimal digit character for d. */
  function DigitChar(d: nat): (c: char)
    requires d < 10
    ensures IsDigit(c) && c as int - '0' as int == d
  {
    ('0' as int + d) as char
  }

  function DigitValue(c: char): (d: nat)
    requires IsDigit(c)
    ensures d < 10 && DigitChar(d) == c
  {
    c as int - '0' as int
  }

  /** Python's `str(n)` for n >= 0: the decimal digits of n, without leading zeros. */
  function Decimal(n: nat): (s: string)
    ensures AllDigits(s) && |s| >= 1
    ensures |s| > 1 ==> s[0] != '0'
    decreases n
  {
    if n < 10 then [DigitChar(n)] else Decimal(n / 10) + [DigitChar(n % 10)]
  }

  /** The number a digit string denotes in base 10; leading zeros are allowed. */
  function ValueOf(s: string): nat
    requires AllDigits(s)
    decreases |s|
  {
    if s == [] then 0 else ValueOf(s[..|s| - 1]) * 10 + DigitValue(s[|s| - 1])
  }

  /** Reading back the decimal string of n gives n. */
  lemma {:induction false} ValueOfDecimal(n: nat)
    ensures ValueOf(Decimal(n)) == n
    decreases n
  {
    if n >= 10 {
      var s := Decimal(n);
      assert s[..|s| - 1] == Decimal(n / 10);
      ValueOfDecimal(n / 10);
    }
  }

  /** `str(n)` is injective. */
  lemma DecimalInjective(n: nat, m: nat)
    ensures Decimal(n) == Decimal(m) <==> n == m
  {
    ValueOfDecimal(n);
    ValueOfDecimal(m);
  }

  function Pow10(w: nat): (p: nat)
    ensures p >= 1
  {
    if w == 0 then 1 else 10 * Pow10(w - 1)
  }

  /** `str(n)` has at most w digits exactly when n < 10^w (w >= 1). */
  lemma {:induction false} DecimalLength(n: nat, w: nat)
    requires w >= 1
    ensures |Decimal(n)| <= w <==> n < Pow10(w)
    decreases n
  {
    if n >= 10 {
      if w == 1 {
        assert |Decimal(n)| == |Decimal(n / 10)| + 1 >= 2;
        assert Pow10(1) == 10;
      } else {
        DecimalLength(n / 10, w - 1);
        assert |Decimal(n)| == |Decimal(n / 10)| + 1;
        assert Pow10(w) == 10 * Pow10(w - 1);
        assert n / 10 < Pow10(w - 1) <==> n < 10 * Pow10(w - 1);
      }
    } else {
      assert Pow10(w) == 10 * Pow10(w - 1);
    }
  }

  function Zeros(k: nat): (z: string)
    ensures |z| == k && forall i :: 0 <= i < k ==> z[i] == '0'
  {
    seq(k, _ => '0')
  }

  /** Python's `s.zfill(width)` on a digit string: '0's on the left up to width characters. */
  function ZFill(s: string, width: nat): (r: string)
    ensures |r| == if |s| < width then width else |s|
    ensures r[|r| - |s|..] == s
    ensures forall i :: 0 <= i < |r| - |s| ==> r[i] == '0'
  {
    if |s| < width then Zeros(width - |s|) + s else s
  }

  lemma {:induction false} ValueOfZeros(k: nat)
    ensures ValueOf(Zeros(k)) == 0
    decreases k
  {
    if k > 0 {
      assert Zeros(k)[..k - 1] == Zeros(k - 1);
      ValueOfZeros(k - 1);
    }
  }

  /** Leading zeros do not change the value of a digit string. */
  lemma {:induction false} ValueOfPadded(k: nat, s: string)
    requires AllDigits(s)
    ensures AllDigits(Zeros(k) + s) && ValueOf(Zeros(k) + s) == ValueOf(s)
    decreases |s|
  {
    var t := Zeros(k) + s;
    if s == [] {
      assert t == Zeros(k);
      ValueOfZeros(k);
    } else {
      assert t[..|t| - 1] == Zeros(k) + s[..|s| - 1];
      ValueOfPadded(k, s[..|s| - 1]);
    }
  }

  lemma ZFillPadded(s: string, width: nat)
    requires |s| < width
    ensures ZFill(s, width) == Zeros(width - |s|) + s
  {
  }

  /** The digits of a zero-padded counter denote the counter. */
  lemma ValueOfZFill(n: nat, width: nat)
    ensures AllDigits(ZFill(Decimal(n), width)) && ValueOf(ZFill(Decimal(n), width)) == n
  {
    var s := Decimal(n);
    ValueOfDecimal(n);
    if |s| < width {
      ZFillPadded(s, width);
      ValueOfPadded(width - |s|, s);
    }
  }

  /** A record key: prefix followed by `str(n).zfill(width)`. */
  function Key(prefix: string, n: nat, width: nat): (k: string)
    ensures |k| >= |prefix| + width
    ensures k[..|prefix|] == prefix
  {
    prefix + ZFill(Decimal(n), width)
  }

  /** A string in key format: the prefix followed by exactly width decimal digits. */
  predicate IsKeyOf(s: string, prefix: string, width: nat) {
    && |s| == |prefix| + width
    && s[..|prefix|] == prefix
    && AllDigits(s[|prefix|..])
  }

  /** The counter held by a string that starts with prefix and continues with digits. */
  function KeyCounter(prefix: string, k: string): nat
    requires |k| >= |prefix| && AllDigits(k[|prefix|..])
  {
    ValueOf(k[|prefix|..])
  }

  /** Round trip: the counter read back from a key is the counter it was built from. */
  lemma KeyRoundTrip(prefix: string, n: nat, width: nat)
    ensures AllDigits(Key(prefix, n, width)[|prefix|..])
    ensures KeyCounter(prefix, Key(prefix, n, width)) == n
  {
    var k := Key(prefix, n, width);
    assert k[|prefix|..] == ZFill(Decimal(n), width);
    ValueOfZFill(n, width);
  }

  /** Keys with the same prefix and width are equal exactly when their counters are. */
  lemma KeyInjective(prefix: string, n: nat, m: nat, width: nat)
    ensures Key(prefix, n, width) == Key(prefix, m, width) <==> n == m
  {
    KeyRoundTrip(prefix, n, width);
    KeyRoundTrip(prefix, m, width);
  }

  /** A counter below 10^width gives a key of exactly the prefix plus width digits. */
  lemma KeyFormat(prefix: string, n: nat, width: nat)
    requires width >= 1 && n < Pow10(width)
    ensures IsKeyOf(Key(prefix, n, width), prefix, width)
  {
    DecimalLength(n, width);
    KeyRoundTrip(prefix, n, width);
  }

  /** The key of the i-th generated record (0-based), whose counter is i + 1: `str(i+1).zfill(width)`. */
  function SequentialKey(prefix: string, width: nat, i: nat): string {
    Key(prefix, i + 1, width)
  }

  /** The first count sequential keys are pairwise distinct. */
  lemma SequentialKeysDistinct(prefix: string, width: nat, count: nat)
    ensures forall i, j :: 0 <= i < j < count ==> SequentialKey(prefix, width, i) != SequentialKey(prefix, width, j)
  {
    forall i, j | 0 <= i < j < count
      ensures SequentialKey(prefix, width, i) != SequentialKey(prefix, width, j)
    {
      var ki, kj := Key(prefix, i + 1, width), Key(prefix, j + 1, width);
      KeyInjective(prefix, i + 1, j + 1, width);
      assert ki != kj;
      assert SequentialKey(prefix, width, i) == ki && SequentialKey(prefix, width, j) == kj;
    }
  }

  /** Below 10^width, the first count sequential keys are all in key format. */
  lemma SequentialKeysFormat(prefix: string, width: nat, count: nat)
    requires width >= 1 && count < Pow10(width)
    ensures forall i :: 0 <= i < count ==> IsKeyOf(SequentialKey(prefix, width, i), prefix, width)
  {
    forall i | 0 <= i < count ensures IsKeyOf(SequentialKey(prefix, width, i), prefix, width) {
      KeyFormat(prefix, i + 1, width);
    }
  }

  /** The first count sequential keys are distinct; below 10^width they are all in key format. */
  lemma SequentialKeys(prefix: string, width: nat, count: nat)
    ensures forall i, j :: 0 <= i < j < count ==> SequentialKey(prefix, width, i) != SequentialKey(prefix, width, j)
    ensures width >= 1 && count < Pow10(width) ==>
      forall i :: 0 <= i < count ==> IsKeyOf(SequentialKey(prefix, width, i), prefix, width)
  {
    SequentialKeysDistinct(prefix, width, count);
    if width >= 1 && count < Pow10(width) {
      SequentialKeysFormat(prefix, width, count);
    }
  }
}
