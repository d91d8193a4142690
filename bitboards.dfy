/**
 * 64-bit bitboards (bitboard.py). Bit i of a bitboard stands for the
 * square numbered i + 1, so the low byte is the white back rank.
 */
module Bitboards {
  import opened Squares
  import opened Wrappers

  type Bitboard = bv64

  const Full: Bitboard := 0xffff_ffff_ffff_ffff

  /** The single-square mask of `square_masks`. */
  function FromSquare(s: Square): Bitboard
  {
    1 << (s - 1)
  }

  /** Whether a bitboard holds a square. */
  predicate Has(b: Bitboard, s: Square)
  {
    b & FromSquare(s) != 0
  }

  /** The truth value of `a & b` in a Python test: the two bitboards share a square. */
  predicate Meets(a: Bitboard, b: Bitboard)
  {
    a & b != 0
  }

  /** Testing against a square's mask is testing for the square. */
  lemma MeetsSquare(b: Bitboard, s: Square)
    ensures Meets(b, FromSquare(s)) == Has(b, s)
  {
  }

  /** The mask of `rank_masks` for a rank. */
  function RankMask(r: bv8): Bitboard
    requires 1 <= r <= 8
  {
    0xff << ((r - 1) * 8)
  }

  /** The mask of `file_masks` for a file. */
  function FileMask(f: bv8): Bitboard
    requires 1 <= f <= 8
  {
    0x0101_0101_0101_0101 << (f - 1)
  }

  /** `Bitboard.from_rank`: a ValueError unless 0 < rank < 9. */
  function FromRank(r: int): (res: Result<Bitboard>)
    ensures res.Success? <==> 1 <= r <= 8
    ensures res.Success? ==> forall s: Square :: Has(res.value, s) <==> Rank(s) as int == r
  {
    if !(0 < r < 9) then Failure(ValueError)
    else
      assert forall s: Square :: Has(RankMask(r as bv8), s) <==> Rank(s) as int == r by {
        forall s: Square ensures Has(RankMask(r as bv8), s) <==> Rank(s) as int == r {
          RankHas(r as bv8, s);
        }
      }
      Success(RankMask(r as bv8))
  }

  /** `Bitboard.from_file`: a ValueError unless 0 < file < 9. */
  function FromFile(f: int): (res: Result<Bitboard>)
    ensures res.Success? <==> 1 <= f <= 8
    ensures res.Success? ==> forall s: Square :: Has(res.value, s) <==> File(s) as int == f
  {
    if !(0 < f < 9) then Failure(ValueError)
    else
      assert forall s: Square :: Has(FileMask(f as bv8), s) <==> File(s) as int == f by {
        forall s: Square ensures Has(FileMask(f as bv8), s) <==> File(s) as int == f {
          FileHas(f as bv8, s);
        }
      }
      Success(FileMask(f as bv8))
  }

  // ---------------------------------------------------------------------
  // The constructor's range check.

  function Pow2(k: nat): (p: nat)
    ensures p >= 1
  {
    if k == 0 then 1 else 2 * Pow2(k - 1)
  }

  /** Python's `int.bit_length` of a non-negative integer. */
  function BitLengthNat(n: nat): nat
    decreases n
  {
    if n == 0 then 0 else 1 + BitLengthNat(n / 2)
  }

  /** Python's `int.bit_length`: the bit length of the absolute value. */
  function BitLengthInt(x: int): nat
  {
    if x >= 0 then BitLengthNat(x) else BitLengthNat(-x)
  }

  /** A number has at most k bits exactly when it is below 2^k. */
  lemma {:induction false} BitLengthBound(n: nat, k: nat)
    ensures BitLengthNat(n) <= k <==> n < Pow2(k)
    decreases n
  {
    if n == 0 {
    } else if k == 0 {
    } else {
      BitLengthBound(n / 2, k - 1);
    }
  }

  /**
   * The check of `Bitboard.__new__` as written: it refuses a value only
   * when it is wider than 64 bits AND negative.
   */
  predicate ConstructorAccepts(x: int)
  {
    BitLengthInt(x) <= 64 || x > -1
  }

  /** As written, the check refuses only values at or below -2^64. */
  lemma ConstructorAcceptsAsWritten(x: int)
    ensures ConstructorAccepts(x) <==> x > -(Pow2(64) as int)
  {
    if x < 0 {
      BitLengthBound(-x, 64);
    }
  }

  /** The as-written check lets through -1 and 2^64, neither of them 64 unsigned bits. */
  lemma ConstructorAcceptsOutOfRange()
    ensures ConstructorAccepts(-1) && ConstructorAccepts(Pow2(64))
    ensures !(0 <= Pow2(64) < Pow2(64))
  {
    ConstructorAcceptsAsWritten(-1);
  }

  /** The check the constructor's message describes: a value that fits in 64 unsigned bits. */
  function CheckedBitboard(x: int): (res: Result<Bitboard>)
    ensures res.Success? <==> 0 <= x < Pow2(64)
  {
    BitLengthBound(if x >= 0 then x else 0, 64);
    Pow64();
    if BitLengthInt(x) <= 64 && x > -1 then Success(x as bv64) else Failure(ValueError)
  }

  /** Every bitboard value passes the corrected check and comes back unchanged. */
  lemma CheckedBitboardRoundTrip(b: Bitboard)
    ensures CheckedBitboard(b as int) == Success(b)
  {
    Pow64();
  }

  /** 2^64, the first value a bitboard cannot hold. */
  lemma Pow64()
    ensures Pow2(64) == 0x1_0000_0000_0000_0000
  {
    assert Pow2(8) == 0x100;
    assert Pow2(16) == 0x1_0000 by { PowAdd(8, 8); }
    assert Pow2(32) == 0x1_0000_0000 by { PowAdd(16, 16); }
    PowAdd(32, 32);
  }

  lemma {:induction false} PowAdd(a: nat, b: nat)
    ensures Pow2(a + b) == Pow2(a) * Pow2(b)
    decreases a
  {
    if a > 0 {
      PowAdd(a - 1, b);
    }
  }

  // ---------------------------------------------------------------------
  // Square membership under the bitwise operators.

  /** A mask with exactly one bit set. */
  predicate SingleBitMask(m: Bitboard)
  {
    m != 0 && m & (m - 1) == 0
  }

  /** A square's mask has exactly one bit set. */
  lemma SingleBit(s: Square)
    ensures SingleBitMask(FromSquare(s))
  {
  }

  lemma MaskedIsZeroOrMask(a: Bitboard, m: Bitboard)
    requires SingleBitMask(m)
    ensures a & m == 0 || a & m == m
  {
    assert (a & m) & !m == 0;
  }

  lemma AndDistributes(a: Bitboard, b: Bitboard, m: Bitboard)
    ensures (a & b) & m == (a & m) & (b & m)
  {
  }

  lemma OrDistributes(a: Bitboard, b: Bitboard, m: Bitboard)
    ensures (a | b) & m == (a & m) | (b & m)
  {
  }

  lemma AndOverOr(x: Bitboard, y: Bitboard, z: Bitboard)
    ensures x & (y | z) == (x & y) | (x & z)
  {
  }

  lemma OrZero(p: Bitboard, q: Bitboard)
    ensures p | q == 0 <==> p == 0 && q == 0
  {
  }

  /** Meeting a union is meeting one of its parts. */
  lemma MeetsOr(x: Bitboard, y: Bitboard, z: Bitboard)
    ensures Meets(x, y | z) <==> Meets(x, y) || Meets(x, z)
  {
    AndOverOr(x, y, z);
    OrZero(x & y, x & z);
  }

  lemma XorDistributes(a: Bitboard, b: Bitboard, m: Bitboard)
    ensures (a ^ b) & m == (a & m) ^ (b & m)
  {
  }

  lemma NotMasked(a: Bitboard, m: Bitboard)
    ensures (!a) & m == m ^ (a & m)
  {
  }

  lemma OrSingle(a: Bitboard, b: Bitboard, m: Bitboard)
    requires SingleBitMask(m)
    ensures (a | b) & m != 0 <==> (a & m != 0 || b & m != 0)
  {
    OrDistributes(a, b, m);
    MaskedIsZeroOrMask(a, m);
    MaskedIsZeroOrMask(b, m);
  }

  lemma AndSingle(a: Bitboard, b: Bitboard, m: Bitboard)
    requires SingleBitMask(m)
    ensures (a & b) & m != 0 <==> (a & m != 0 && b & m != 0)
  {
    AndDistributes(a, b, m);
    MaskedIsZeroOrMask(a, m);
    MaskedIsZeroOrMask(b, m);
  }

  lemma XorSingle(a: Bitboard, b: Bitboard, m: Bitboard)
    requires SingleBitMask(m)
    ensures (a ^ b) & m != 0 <==> ((a & m != 0) != (b & m != 0))
  {
    XorDistributes(a, b, m);
    MaskedIsZeroOrMask(a, m);
    MaskedIsZeroOrMask(b, m);
  }

  lemma NotSingle(a: Bitboard, m: Bitboard)
    requires SingleBitMask(m)
    ensures (!a) & m != 0 <==> a & m == 0
  {
    NotMasked(a, m);
    MaskedIsZeroOrMask(a, m);
  }

  lemma OrHasLeft(a: Bitboard, b: Bitboard, s: Square)
    ensures Has(a | b, s) ==> Has(a, s) || Has(b, s)
  {
    SingleBit(s);
    OrSingle(a, b, FromSquare(s));
  }

  lemma OrHasRight(a: Bitboard, b: Bitboard, s: Square)
    ensures Has(a, s) || Has(b, s) ==> Has(a | b, s)
  {
    SingleBit(s);
    OrSingle(a, b, FromSquare(s));
  }

  lemma OrHas(a: Bitboard, b: Bitboard, s: Square)
    ensures Has(a | b, s) <==> Has(a, s) || Has(b, s)
  {
    OrHasLeft(a, b, s);
    OrHasRight(a, b, s);
  }

  lemma AndHasLeft(a: Bitboard, b: Bitboard, s: Square)
    ensures Has(a & b, s) ==> Has(a, s) && Has(b, s)
  {
    SingleBit(s);
    AndSingle(a, b, FromSquare(s));
  }

  lemma AndHasRight(a: Bitboard, b: Bitboard, s: Square)
    ensures Has(a, s) && Has(b, s) ==> Has(a & b, s)
  {
    SingleBit(s);
    AndSingle(a, b, FromSquare(s));
  }

  lemma AndHas(a: Bitboard, b: Bitboard, s: Square)
    ensures Has(a & b, s) <==> Has(a, s) && Has(b, s)
  {
    AndHasLeft(a, b, s);
    AndHasRight(a, b, s);
  }

  lemma XorHas(a: Bitboard, b: Bitboard, s: Square)
    ensures Has(a ^ b, s) <==> Has(a, s) != Has(b, s)
  {
    SingleBit(s);
    XorSingle(a, b, FromSquare(s));
  }

  lemma NotHas(a: Bitboard, s: Square)
    ensures Has(!a, s) <==> !Has(a, s)
  {
    SingleBit(s);
    NotSingle(a, FromSquare(s));
  }

  lemma NotAndHas(a: Bitboard, b: Bitboard, s: Square)
    ensures Has(!a & b, s) <==> !Has(a, s) && Has(b, s)
  {
    AndHas(!a, b, s);
    NotHas(a, s);
  }

  lemma AndNotHas(a: Bitboard, b: Bitboard, s: Square)
    ensures Has(a & !b, s) <==> Has(a, s) && !Has(b, s)
  {
    AndHas(a, !b, s);
    NotHas(b, s);
  }

  lemma EmptyHasNothing(s: Square)
    ensures !Has(0, s)
  {
  }

  lemma FullHasAll(s: Square)
    ensures Has(Full, s)
  {
  }

  /** The mask of a square holds that square and no other. */
  lemma HasSquare(t: Square, s: Square)
    ensures Has(FromSquare(t), s) <==> t == s
  {
  }

  /** Setting a square's bit adds exactly that square. */
  lemma SetHas(b: Bitboard, s: Square, t: Square)
    ensures Has(b | FromSquare(s), t) <==> t == s || Has(b, t)
  {
    OrHas(b, FromSquare(s), t);
    HasSquare(s, t);
  }

  /** Toggling a square's bit flips exactly that square. */
  lemma ToggleHas(b: Bitboard, s: Square, t: Square)
    ensures Has(b ^ FromSquare(s), t) <==> Has(b, t) != (t == s)
  {
    XorHas(b, FromSquare(s), t);
    HasSquare(s, t);
  }

  /** Clearing a square's bit removes exactly that square. */
  lemma ClearHas(b: Bitboard, s: Square, t: Square)
    ensures Has(b & !FromSquare(s), t) <==> t != s && Has(b, t)
  {
    AndNotHas(b, FromSquare(s), t);
    HasSquare(s, t);
  }

  /** Moving a held bit from a to b: b is set, a is cleared, the rest stays. */
  lemma MoveBitHas(bb: Bitboard, a: Square, b: Square, t: Square)
    requires Has(bb, a)
    ensures Has((bb ^ FromSquare(a)) | FromSquare(b), t) <==> t == b || (t != a && Has(bb, t))
  {
    SetHas(bb ^ FromSquare(a), b, t);
    ToggleHas(bb, a, t);
  }

  /** The rank mask holds exactly the squares of its rank. */
  lemma RankHas(r: bv8, s: Square)
    requires 1 <= r <= 8
    ensures Has(RankMask(r), s) <==> Rank(s) == r
  {
  }

  /** The file mask holds exactly the squares of its file. */
  lemma FileHas(f: bv8, s: Square)
    requires 1 <= f <= 8
    ensures Has(FileMask(f), s) <==> File(s) == f
  {
  }

  /** Shifting left by eight moves every square one rank up; nothing lands on rank 1. */
  lemma ShiftUpHas(b: Bitboard, s: Square)
    ensures Has(b << 8, s) <==> s > 8 && Has(b, s - 8)
  {
  }

  /** Shifting right by eight moves every square one rank down; nothing lands on rank 8. */
  lemma ShiftDownHas(b: Bitboard, s: Square)
    ensures Has(b >> 8, s) <==> s <= 56 && Has(b, s + 8)
  {
  }

  /** The bitboard of a list of squares. */
  function SquaresMask(sq: seq<Square>): Bitboard
  {
    if sq == [] then 0 else FromSquare(sq[0]) | SquaresMask(sq[1..])
  }

  lemma {:induction false} SquaresMaskHas(sq: seq<Square>, s: Square)
    ensures Has(SquaresMask(sq), s) <==> s in sq
    decreases |sq|
  {
    if sq == [] {
      EmptyHasNothing(s);
    } else {
      SquaresMaskHas(sq[1..], s);
      OrHas(FromSquare(sq[0]), SquaresMask(sq[1..]), s);
      HasSquare(sq[0], s);
      assert sq == [sq[0]] + sq[1..];
    }
  }

  // ---------------------------------------------------------------------
  // The table values the bitboard tests check.

  lemma MaskTables()
    ensures FromRank(1) == Success(0xff)
    ensures FromRank(8) == Success(0xff << 56)
    ensures FromFile(1) == Success(0x0101_0101_0101_0101)
    ensures FromFile(8) == Success(0x0101_0101_0101_0101 << 7)
    ensures FromSquare(1) == 1
    ensures FromRank(0) == Failure(ValueError) && FromFile(9) == Failure(ValueError)
  {
  }

  /** The eight ranks, and the eight files, together cover the board. */
  lemma MasksCoverBoard()
    ensures RankMask(1) | RankMask(2) | RankMask(3) | RankMask(4)
      | RankMask(5) | RankMask(6) | RankMask(7) | RankMask(8) == Full
    ensures FileMask(1) | FileMask(2) | FileMask(3) | FileMask(4)
      | FileMask(5) | FileMask(6) | FileMask(7) | FileMask(8) == Full
  {
  }

  /** The squares of rank 1, of rank 8, of the a-file and of the h-file make up those masks. */
  lemma SquaresMakeMasks()
    ensures FromSquare(A1) | FromSquare(B1) | FromSquare(C1) | FromSquare(D1)
      | FromSquare(E1) | FromSquare(F1) | FromSquare(G1) | FromSquare(H1) == RankMask(1)
    ensures FromSquare(A8) | FromSquare(B8) | FromSquare(C8) | FromSquare(D8)
      | FromSquare(E8) | FromSquare(F8) | FromSquare(G8) | FromSquare(H8) == RankMask(8)
    ensures FromSquare(A1) | FromSquare(A2) | FromSquare(A3) | FromSquare(A4)
      | FromSquare(A5) | FromSquare(A6) | FromSquare(A7) | FromSquare(A8) == FileMask(1)
    ensures FromSquare(H1) | FromSquare(H2) | FromSquare(H3) | FromSquare(H4)
      | FromSquare(H5) | FromSquare(H6) | FromSquare(H7) | FromSquare(H8) == FileMask(8)
  {
  }
}
