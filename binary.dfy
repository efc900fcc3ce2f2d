/**
 * `int_to_bin`: a number written as a zero-padded binary string and read
 * back as booleans, most significant bit first. The scanners drive their
 * select lines with these codes.
 */
module Binary {

  function Pow2(n: nat): (r: nat)
    ensures r >= 1
  {
    if n == 0 then 1 else 2 * Pow2(n - 1)
  }

  /** The binary digits of `v` without leading zeros ("0" for 0), as booleans. */
  function Digits(v: nat): (r: seq<bool>)
    ensures |r| >= 1
    decreases v
  {
    if v < 2 then [v == 1] else Digits(v / 2) + [v % 2 == 1]
  }

  function Zeros(n: nat): (r: seq<bool>)
    ensures |r| == n && forall i :: 0 <= i < n ==> !r[i]
  {
    seq(n, _ => false)
  }

  /**
   * `int_to_bin(v, width)`: the format "{:0Nb}", with N the width, pads the digits of `v`
   * on the left with zeros up to `width` characters and never truncates,
   * so a value too wide for `width` keeps all its digits.
   */
  function IntToBin(v: nat, width: nat): (r: seq<bool>)
    ensures |r| == if |Digits(v)| < width then width else |Digits(v)|
  {
    if |Digits(v)| < width then Zeros(width - |Digits(v)|) + Digits(v) else Digits(v)
  }

  /** The encoding ends with the digits of `v` and every bit before them is a zero. */
  lemma IntToBinPads(v: nat, width: nat)
    ensures var r := IntToBin(v, width);
      r[|r| - |Digits(v)|..] == Digits(v) && forall i :: 0 <= i < |r| - |Digits(v)| ==> !r[i]
  {
    var r := IntToBin(v, width);
    if |Digits(v)| < width {
      assert r == Zeros(width - |Digits(v)|) + Digits(v);
    }
  }

  /** The number a most-significant-bit-first bit sequence denotes. */
  function FromBin(bits: seq<bool>): (r: nat)
  {
    if bits == [] then 0
    else 2 * FromBin(bits[..|bits| - 1]) + (if bits[|bits| - 1] then 1 else 0)
  }

  lemma {:induction false} FromDigits(v: nat)
    ensures FromBin(Digits(v)) == v
    decreases v
  {
    if v >= 2 {
      var d := Digits(v);
      assert d[..|d| - 1] == Digits(v / 2);
      FromDigits(v / 2);
    }
  }

  lemma {:induction false} LeadingZeros(n: nat, s: seq<bool>)
    ensures FromBin(Zeros(n) + s) == FromBin(s)
    decreases |s|
  {
    if s == [] {
      assert Zeros(n) + s == Zeros(n);
      ZerosDenoteZero(n);
    } else {
      var t := Zeros(n) + s;
      assert t[..|t| - 1] == Zeros(n) + s[..|s| - 1];
      LeadingZeros(n, s[..|s| - 1]);
    }
  }

  lemma {:induction false} ZerosDenoteZero(n: nat)
    ensures FromBin(Zeros(n)) == 0
  {
    if n > 0 {
      assert Zeros(n)[..n - 1] == Zeros(n - 1);
      ZerosDenoteZero(n - 1);
    }
  }

  lemma {:induction false} DigitsFit(v: nat, k: nat)
    requires k >= 1 && v < Pow2(k)
    ensures |Digits(v)| <= k
    decreases v
  {
    if v >= 2 {
      DigitsFit(v / 2, k - 1);
    }
  }

  lemma {:induction false} DigitsOverflow(v: nat, k: nat)
    requires v >= Pow2(k)
    ensures |Digits(v)| > k
    decreases k
  {
    if k > 0 {
      DigitsOverflow(v / 2, k - 1);
    }
  }

  /**
   * For 0 <= v < 2^width (width at least 1) the encoding has exactly
   * `width` bits and reads back as `v`.
   */
  lemma IntToBinRoundTrip(v: nat, width: nat)
    requires width >= 1 && v < Pow2(width)
    ensures |IntToBin(v, width)| == width
    ensures FromBin(IntToBin(v, width)) == v
  {
    DigitsFit(v, width);
    FromDigits(v);
    if |Digits(v)| < width {
      LeadingZeros(width - |Digits(v)|, Digits(v));
    }
  }

  /** A value of 2^width or more is not truncated: it takes more than `width` bits. */
  lemma IntToBinOverflow(v: nat, width: nat)
    requires v >= Pow2(width)
    ensures |IntToBin(v, width)| > width
  {
    DigitsOverflow(v, width);
  }

  /**
   * `[int_to_bin(x, width) for x in range(2 ** width)]`: the select codes
   * for every line address.
   */
  function Options(width: nat): (r: seq<seq<bool>>)
    ensures |r| == Pow2(width)
    ensures forall i :: 0 <= i < |r| ==> r[i] == IntToBin(i, width)
  {
    seq(Pow2(width), i requires 0 <= i => IntToBin(i, width))
  }

  /** The select codes are `width` bits each and pairwise distinct. */
  lemma OptionsAreDistinctCodes(width: nat)
    requires width >= 1
    ensures forall i :: 0 <= i < |Options(width)| ==> |Options(width)[i]| == width
    ensures forall i, j :: 0 <= i < j < |Options(width)| ==> Options(width)[i] != Options(width)[j]
  {
    forall i | 0 <= i < Pow2(width)
      ensures |Options(width)[i]| == width && FromBin(Options(width)[i]) == i
    {
      IntToBinRoundTrip(i, width);
    }
  }
}
