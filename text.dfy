/**
 * The few JavaScript string operations the application relies on, restricted
 * to what the model needs: ASCII case folding, substring search, joining,
 * decimal rendering of integers, `slice(-k)` and `padStart`.
 */
module Text {

  /** `String.prototype.toLowerCase` on one character, ASCII letters only. */
  function LowerChar(c: char): char
  {
    if 'A' <= c <= 'Z' then (c as int + 32) as char else c
  }

  /** `String.prototype.toLowerCase`, ASCII letters only. */
  function Lower(s: string): (r: string)
    ensures |r| == |s|
    ensures forall i | 0 <= i < |s| :: r[i] == LowerChar(s[i])
  {
    seq(|s|, i requires 0 <= i < |s| => LowerChar(s[i]))
  }

  /** Folding is idempotent: a term that is already lower case is left alone. */
  lemma LowerIdempotent(s: string)
    ensures Lower(Lower(s)) == Lower(s)
  {
  }

  /** `String.prototype.includes`: `sub` occurs in `s` at some position. */
  predicate Contains(s: string, sub: string)
  {
    exists i | 0 <= i <= |s| - |sub| :: OccursAt(s, sub, i)
  }

  /** `sub` is found in `s` starting at index `i`. */
  predicate OccursAt(s: string, sub: string, i: int)
  {
    0 <= i <= |s| - |sub| && s[i..i + |sub|] == sub
  }

  /** The empty string occurs in every string. */
  lemma ContainsEmpty(s: string)
    ensures Contains(s, "")
  {
    assert OccursAt(s, "", 0);
  }

  /** `Array.prototype.join(sep)`. */
  function Join(parts: seq<string>, sep: string): string
  {
    if |parts| == 0 then ""
    else if |parts| == 1 then parts[0]
    else Join(parts[..|parts| - 1], sep) + sep + parts[|parts| - 1]
  }

  predicate IsDigit(c: char)
  {
    '0' <= c <= '9'
  }

  function DigitChar(d: nat): (c: char)
    requires d < 10
    ensures IsDigit(c)
  {
    ('0' as int + d) as char
  }

  function DigitValue(c: char): nat
    requires IsDigit(c)
  {
    c as int - '0' as int
  }

  predicate AllDigits(s: string)
  {
    forall i | 0 <= i < |s| :: IsDigit(s[i])
  }

  function Pow10(k: nat): (p: nat)
    ensures p >= 1
  {
    if k == 0 then 1 else 10 * Pow10(k - 1)
  }

  /** `Number.prototype.toString()` of a non-negative integer: its decimal digits, no leading zero. */
  function NatToString(n: nat): (r: string)
    ensures 1 <= |r| && AllDigits(r)
    ensures |r| > 1 ==> r[0] != '0'
  {
    if n < 10 then [DigitChar(n)] else NatToString(n / 10) + [DigitChar(n % 10)]
  }

  /** `Number.prototype.toString()` of an integer, with a leading `-` when negative. */
  function IntToString(x: int): string
  {
    if x < 0 then "-" + NatToString(-x) else NatToString(x)
  }

  /** The value of a string of decimal digits (the empty string reads as 0). */
  function ParseDigits(s: string): nat
    requires AllDigits(s)
  {
    if s == [] then 0 else ParseDigits(s[..|s| - 1]) * 10 + DigitValue(s[|s| - 1])
  }

  /** The last `w` decimal digits of `n`, with leading zeros: `n % 10^w` written in exactly `w` digits. */
  function FixedDigits(n: nat, w: nat): (r: string)
    ensures |r| == w && AllDigits(r)
  {
    if w == 0 then [] else FixedDigits(n / 10, w - 1) + [DigitChar(n % 10)]
  }

  /** Reading `w` fixed digits gives the number modulo `10^w`. */
  lemma {:induction false} ParseFixedDigits(n: nat, w: nat)
    ensures ParseDigits(FixedDigits(n, w)) == n % Pow10(w)
  {
    if w > 0 {
      var r := FixedDigits(n, w);
      assert r[..w - 1] == FixedDigits(n / 10, w - 1);
      ParseFixedDigits(n / 10, w - 1);
      ModOfTenMultiple(n, Pow10(w - 1));
    }
  }

  /** `n % (10 p)` splits into the last digit and the remaining digits modulo `p`. */
  lemma ModOfTenMultiple(n: nat, p: nat)
    requires p >= 1
    ensures n % (10 * p) == ((n / 10) % p) * 10 + n % 10
  {
    var q := n / 10;
    var a, b := q / p, q % p;
    assert n == 10 * q + n % 10;
    assert q == p * a + b;
    assert n == (10 * p) * a + (10 * b + n % 10);
    assert 0 <= 10 * b + n % 10 < 10 * p;
    ModUnique(n, 10 * p, a, 10 * b + n % 10);
  }

  lemma ModUnique(n: int, d: int, q: int, r: int)
    requires d > 0 && 0 <= r < d && n == d * q + r
    ensures n % d == r
  {
    var q', r' := n / d, n % d;
    assert d * q' + r' == d * q + r;
    if q' < q {
      MulAtLeast(d, q - q');
    } else if q' > q {
      MulAtLeast(d, q' - q);
    }
  }

  lemma MulAtLeast(d: nat, k: int)
    requires k >= 1
    ensures d * k >= d
  {
  }

  /** `String.prototype.slice(-k)` for `k >= 1`: the last `k` characters, or all of a shorter string. */
  function SliceLast(s: string, k: nat): (r: string)
    requires k >= 1
    ensures |r| == if |s| <= k then |s| else k
  {
    if |s| <= k then s else s[|s| - k..]
  }

  /** `String.prototype.padStart(width, fill)`. */
  function PadStart(s: string, width: nat, fill: char): (r: string)
    ensures |r| == if |s| >= width then |s| else width
  {
    if |s| >= width then s else seq(width - |s|, _ => fill) + s
  }

  /** A number with at least `k` digits keeps its last `k` digits under `slice(-k)`. */
  lemma {:induction false} SliceLastOfDecimal(n: nat, k: nat)
    requires k >= 1 && n >= Pow10(k - 1)
    ensures SliceLast(NatToString(n), k) == FixedDigits(n, k)
  {
    if k == 1 {
      if n >= 10 {
        var r := NatToString(n);
        assert r == NatToString(n / 10) + [DigitChar(n % 10)];
        assert r[|r| - 1..] == [DigitChar(n % 10)];
      }
    } else {
      assert n / 10 >= Pow10(k - 2);
      SliceLastOfDecimal(n / 10, k - 1);
      SliceLastAppend(NatToString(n / 10), DigitChar(n % 10), k);
    }
  }

  lemma SliceLastAppend(s: string, c: char, k: nat)
    requires k >= 2
    ensures SliceLast(s + [c], k) == SliceLast(s, k - 1) + [c]
  {
    if |s| + 1 > k {
      assert (s + [c])[|s| + 1 - k..] == s[|s| - (k - 1)..] + [c];
    }
  }

  /** A number below 100, padded to two characters with `0`, is its two fixed digits. */
  lemma PadStartOfDecimal(n: nat)
    requires n < 100
    ensures PadStart(NatToString(n), 2, '0') == FixedDigits(n, 2)
  {
    if n < 10 {
      assert FixedDigits(n, 2) == FixedDigits(0, 1) + [DigitChar(n)];
    } else {
      assert NatToString(n) == NatToString(n / 10) + [DigitChar(n % 10)];
    }
  }
}
