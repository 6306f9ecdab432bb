/**
  The value-range property that the documentation of `ConstantPositive` promises:
  a value in the signed positive range of a bit width has the same value whether
  its bit pattern is read as a signed (two's-complement) or as an unsigned number.

  A bit pattern of width `w` is a sequence of `w` booleans, least significant bit
  first. The signed positive range of width `w >= 1` is `0 <= v < 2^(w-1)`, that
  is, the values whose most significant bit is clear; zero is included.
*/
module TwosComplement {

  function Pow2(n: nat): (r: nat)
    ensures r >= 1
  {
    if n == 0 then 1 else 2 * Pow2(n - 1)
  }

  /** The bit pattern read as an unsigned number. */
  function UnsignedValue(bits: seq<bool>): (r: nat) {
    if bits == [] then 0 else (if bits[0] then 1 else 0) + 2 * UnsignedValue(bits[1..])
  }

  /** The bit pattern read as a two's-complement number: the top bit weighs -2^(w-1). */
  function SignedValue(bits: seq<bool>): (r: int)
    requires |bits| >= 1
  {
    UnsignedValue(bits) - (if bits[|bits| - 1] then Pow2(|bits|) else 0)
  }

  /** The signed positive range of width `w`; it includes zero. */
  predicate InSignedPositiveRange(v: int, w: nat)
    requires w >= 1
  {
    0 <= v < Pow2(w - 1)
  }

  /** The width-`w` bit pattern of a value that fits in `w` unsigned bits. */
  function Bits(v: nat, w: nat): (bits: seq<bool>)
    requires v < Pow2(w)
    ensures |bits| == w && UnsignedValue(bits) == v
  {
    if w == 0 then [] else [v % 2 == 1] + Bits(v / 2, w - 1)
  }

  /** An unsigned reading of `w` bits is below 2^w. */
  lemma {:induction false} UnsignedValueBound(bits: seq<bool>)
    ensures UnsignedValue(bits) < Pow2(|bits|)
  {
    if bits != [] {
      UnsignedValueBound(bits[1..]);
    }
  }

  /** The top bit is clear exactly when the unsigned reading is in the signed positive range. */
  lemma {:induction false} TopBitClearIffSignedPositive(bits: seq<bool>)
    requires |bits| >= 1
    ensures !bits[|bits| - 1] <==> InSignedPositiveRange(UnsignedValue(bits), |bits|)
  {
    if |bits| == 1 {
      assert UnsignedValue(bits[1..]) == 0;
    } else {
      var rest := bits[1..];
      assert rest[|rest| - 1] == bits[|bits| - 1];
      TopBitClearIffSignedPositive(rest);
      UnsignedValueBound(rest);
    }
  }

  /**
    The two readings of a bit pattern agree exactly when its unsigned reading lies
    in the signed positive range; just above it (2^(w-1)) they already differ.
  */
  lemma SameReadingIffSignedPositive(bits: seq<bool>)
    requires |bits| >= 1
    ensures SignedValue(bits) == UnsignedValue(bits) <==> InSignedPositiveRange(UnsignedValue(bits), |bits|)
  {
    TopBitClearIffSignedPositive(bits);
  }

  /** A signed reading of `w` bits lies in the two's-complement range [-2^(w-1), 2^(w-1)). */
  lemma SignedValueBounds(bits: seq<bool>)
    requires |bits| >= 1
    ensures 0 - Pow2(|bits| - 1) <= SignedValue(bits) < Pow2(|bits| - 1)
  {
    UnsignedValueBound(bits);
    TopBitClearIffSignedPositive(bits);
  }

  /**
    The claim of the `ConstantPositive` documentation: a value in the signed
    positive range of width `w` has the same value read as signed or as unsigned.
  */
  lemma ConstantPositiveSameValue(v: int, w: nat)
    requires w >= 1 && InSignedPositiveRange(v, w)
    ensures v < Pow2(w)
    ensures UnsignedValue(Bits(v, w)) == v && SignedValue(Bits(v, w)) == v
  {
    SameReadingIffSignedPositive(Bits(v, w));
  }
}
