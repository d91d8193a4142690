/**
 * Scanning a bitboard for its set bits, and or-ing bitboards together
 * (fog_of_war/helper_functions.py and helper_functions.py).
 *
 * The scan is specified over the predicate "bit i is set", so that the
 * list reasoning never unfolds the bit arithmetic.
 */
module BitScan {
  import opened Squares
  import opened Bitboards
  import opened Wrappers

  /** The number of bits in a bitboard. */
  const Width: bv8 := 64

  /** A bit position of a bitboard. */
  type BitIndex = i: bv8 | i < 64

  predicate Bit(b: Bitboard, i: BitIndex)
  {
    b & (1 << i) != 0
  }

  /** The bits of a bitboard as a predicate on positions. */
  function BitsOf(b: Bitboard): BitIndex -> bool
  {
    (i: BitIndex) => Bit(b, i)
  }

  /** Square s is bit s - 1. */
  lemma HasIsBit(b: Bitboard, s: Square)
    ensures Has(b, s) <==> Bit(b, s - 1)
  {
  }

  // ---------------------------------------------------------------------
  // Positions of a predicate on bits, from the highest down.

  /** The positions below n where f holds, from the highest down. */
  function Positions(f: BitIndex -> bool, n: bv8): (r: seq<BitIndex>)
    requires n <= 64
    ensures forall k :: 0 <= k < |r| ==> r[k] < n
    decreases n
  {
    if n == 0 then []
    else
      var rest := Positions(f, n - 1);
      var i: BitIndex := n - 1;
      if f(i) then [i] + rest else rest
  }

  /** One more than the highest position below n where f holds, 0 when there is none. */
  function TopBelow(f: BitIndex -> bool, n: bv8): (r: bv8)
    requires n <= 64
    ensures r <= n
    decreases n
  {
    if n == 0 then 0 else if f(n - 1) then n else TopBelow(f, n - 1)
  }

  lemma {:induction false} PositionsMembers(f: BitIndex -> bool, n: bv8, i: BitIndex)
    requires n <= 64
    ensures i in Positions(f, n) <==> i < n && f(i)
    decreases n
  {
    if n > 0 {
      PositionsMembers(f, n - 1, i);
    }
  }

  lemma {:induction false} PositionsDescending(f: BitIndex -> bool, n: bv8)
    requires n <= 64
    ensures forall k, j :: 0 <= k < j < |Positions(f, n)| ==> Positions(f, n)[k] > Positions(f, n)[j]
    decreases n
  {
    if n > 0 {
      PositionsDescending(f, n - 1);
    }
  }

  /** Predicates that agree below n have the same positions below n. */
  lemma {:induction false} PositionsAgree(f: BitIndex -> bool, g: BitIndex -> bool, n: bv8)
    requires n <= 64
    requires forall i: BitIndex :: i < n ==> f(i) == g(i)
    ensures Positions(f, n) == Positions(g, n)
    decreases n
  {
    if n > 0 {
      PositionsAgree(f, g, n - 1);
    }
  }

  /** Positions from m up to n where f fails add nothing. */
  lemma {:induction false} PositionsClearTop(f: BitIndex -> bool, m: bv8, n: bv8)
    requires m <= n <= 64
    requires forall i: BitIndex :: m <= i < n ==> !f(i)
    ensures Positions(f, n) == Positions(f, m)
    decreases n
  {
    if n > m {
      PositionsClearTop(f, m, n - 1);
    }
  }

  /** TopBelow marks the highest position where f holds, with none above it. */
  lemma TopBelowHighest(f: BitIndex -> bool, n: bv8)
    requires n <= 64
    ensures TopBelow(f, n) > 0 ==> f(TopBelow(f, n) - 1)
    ensures forall i: BitIndex :: TopBelow(f, n) <= i < n ==> !f(i)
  {
    TopBelowFound(f, n);
    TopBelowClear(f, n);
  }

  lemma {:induction false} TopBelowFound(f: BitIndex -> bool, n: bv8)
    requires n <= 64
    ensures TopBelow(f, n) > 0 ==> f(TopBelow(f, n) - 1)
    decreases n
  {
    if n > 0 && !f(n - 1) {
      TopBelowFound(f, n - 1);
    }
  }

  lemma {:induction false} TopBelowClear(f: BitIndex -> bool, n: bv8)
    requires n <= 64
    ensures forall i: BitIndex :: TopBelow(f, n) <= i < n ==> !f(i)
    decreases n
  {
    if n > 0 && !f(n - 1) {
      TopBelowClear(f, n - 1);
    }
  }

  lemma TopBelowAbove(f: BitIndex -> bool, n: bv8, i: BitIndex)
    requires n <= 64 && TopBelow(f, n) <= i < n
    ensures !f(i)
  {
    TopBelowHighest(f, n);
  }

  /** Dropping the top position t of f, with g equal to f elsewhere, drops the head of the list. */
  lemma DropTop(f: BitIndex -> bool, g: BitIndex -> bool, t: BitIndex)
    requires f(t) && !g(t)
    requires forall i: BitIndex :: i != t ==> g(i) == f(i)
    requires forall i: BitIndex :: t < i ==> !f(i)
    ensures Positions(f, Width) == [t] + Positions(g, Width)
  {
    PositionsClearTop(f, t + 1, Width);
    PositionsClearTop(g, t, Width);
    PositionsAgree(f, g, t);
  }

  // ---------------------------------------------------------------------
  // Bit length and the set bits of a bitboard.

  /** All set bits of a bitboard, from the most significant down. */
  function SetBits(b: Bitboard): seq<BitIndex>
  {
    Positions(BitsOf(b), Width)
  }

  /** The number of set bits. */
  function PopCount(b: Bitboard): nat
  {
    |SetBits(b)|
  }

  /** Python's `int.bit_length` of a bitboard. */
  function BitLength(b: Bitboard): (r: bv8)
    ensures r <= 64
  {
    TopBelow(BitsOf(b), Width)
  }

  /** The bits below position n, that is, the mask 2^n - 1. */
  function LowMask(n: bv8): Bitboard
    requires n <= 64
  {
    (1 << n) - 1
  }

  lemma LowMaskStep(b: Bitboard, n: bv8)
    requires 0 < n <= 64
    requires !Bit(b, n - 1) && b & LowMask(n - 1) == 0
    ensures b & LowMask(n) == 0
  {
  }

  lemma {:induction false} NoBitsBelow(b: Bitboard, n: bv8)
    requires n <= 64
    requires forall i: BitIndex :: i < n ==> !Bit(b, i)
    ensures b & LowMask(n) == 0
    decreases n
  {
    if n > 0 {
      NoBitsBelow(b, n - 1);
      LowMaskStep(b, n);
    }
  }

  /** Python's `bit_length` is zero only for the empty bitboard. */
  lemma BitLengthZero(b: Bitboard)
    ensures BitLength(b) == 0 <==> b == 0
  {
    TopBelowHighest(BitsOf(b), Width);
    if BitLength(b) == 0 {
      forall i: BitIndex
        ensures !Bit(b, i)
      {
        assert !BitsOf(b)(i);
      }
      NoBitsBelow(b, Width);
      assert LowMask(Width) == Full;
    }
  }

  /** Bitboards holding the same squares are equal. */
  lemma BitboardExt(a: Bitboard, b: Bitboard)
    requires forall s: Square :: Has(a, s) == Has(b, s)
    ensures a == b
  {
    var c := a ^ b;
    forall i: BitIndex
      ensures !Bit(c, i)
    {
      var s: Square := i + 1;
      XorHas(a, b, s);
      HasIsBit(c, s);
    }
    NoBitsBelow(c, Width);
    assert LowMask(Width) == Full;
  }

  /** The bit just below Python's `bit_length` is set. */
  lemma BitLengthTop(b: Bitboard)
    requires BitLength(b) > 0
    ensures Bit(b, BitLength(b) - 1)
  {
    var f := BitsOf(b);
    TopBelowHighest(f, Width);
    var t: BitIndex := BitLength(b) - 1;
    assert f(t);
  }

  /** No bit is set at or above Python's `bit_length`. */
  lemma BitLengthAbove(b: Bitboard, i: BitIndex)
    requires BitLength(b) <= i
    ensures !Bit(b, i)
  {
    TopBelowAbove(BitsOf(b), Width, i);
    BitsOfApply(b, i);
  }

  lemma BitsOfApply(b: Bitboard, i: BitIndex)
    ensures BitsOf(b)(i) == Bit(b, i)
  {
  }

  /** Python's `bit_length` is one past the top set bit, with no bit set from there up. */
  lemma BitLengthSpec(b: Bitboard)
    ensures BitLength(b) == 0 <==> b == 0
    ensures BitLength(b) > 0 ==> Bit(b, BitLength(b) - 1)
    ensures forall i: BitIndex :: BitLength(b) <= i ==> !Bit(b, i)
  {
    BitLengthZero(b);
    if BitLength(b) > 0 {
      BitLengthTop(b);
    }
    forall i: BitIndex | BitLength(b) <= i
      ensures !Bit(b, i)
    {
      BitLengthAbove(b, i);
    }
  }

  /** The bit length of a single square's mask is the square's number. */
  lemma BitLengthOfSquare(s: Square)
    ensures BitLength(FromSquare(s)) == s
  {
    BitLengthSpec(FromSquare(s));
  }

  lemma XorOtherBit(b: Bitboard, t: BitIndex, i: BitIndex)
    requires i != t
    ensures Bit(b ^ (1 << t), i) == Bit(b, i)
  {
  }

  lemma XorSameBit(b: Bitboard, t: BitIndex)
    ensures Bit(b ^ (1 << t), t) == !Bit(b, t)
  {
  }

  /** One round of the scan: the top set bit comes first, and clearing it leaves the rest. */
  lemma ScanStep(b: Bitboard, t: BitIndex)
    requires BitLength(b) > 0 && t == BitLength(b) - 1
    ensures SetBits(b) == [t] + SetBits(b ^ (1 << t))
  {
    var c := b ^ (1 << t);
    BitLengthTop(b);
    BitsOfApply(b, t);
    forall i: BitIndex | t < i
      ensures !BitsOf(b)(i)
    {
      BitLengthAbove(b, i);
      BitsOfApply(b, i);
    }
    forall i: BitIndex | i != t
      ensures BitsOf(c)(i) == BitsOf(b)(i)
    {
      XorOtherBit(b, t, i);
      BitsOfApply(b, i);
      BitsOfApply(c, i);
    }
    XorSameBit(b, t);
    BitsOfApply(c, t);
    DropTop(BitsOf(b), BitsOf(c), t);
  }

  /** The empty bitboard has no set bits. */
  lemma SetBitsEmpty()
    ensures SetBits(0) == []
  {
    forall i: BitIndex
      ensures !BitsOf(0)(i)
    {
    }
    PositionsClearTop(BitsOf(0), 0, Width);
  }

  /** Exactly the set bits are listed. */
  lemma SetBitsMembers(b: Bitboard, i: BitIndex)
    ensures i in SetBits(b) <==> Bit(b, i)
  {
    PositionsMembers(BitsOf(b), Width, i);
  }

  // ---------------------------------------------------------------------
  // The generators.

  /**
   * `reverse_scan_for_mask`: repeatedly takes the top set bit and clears
   * it, yielding the bit positions from the most significant down.
   */
  method ReverseScanForMask(bitboard: Bitboard) returns (out: seq<BitIndex>)
    ensures out == SetBits(bitboard)
  {
    var b := bitboard;
    out := [];
    while b != 0
      invariant out + SetBits(b) == SetBits(bitboard)
      decreases PopCount(b)
    {
      BitLengthSpec(b);
      var length: BitIndex := BitLength(b) - 1;
      ScanStep(b, length);
      out := out + [length];
      b := b ^ (1 << length);
    }
    SetBitsEmpty();
  }

  /** The square that bit i stands for. */
  function SquareOfBit(i: BitIndex): (s: Square)
    ensures s - 1 == i
  {
    i + 1
  }

  /** The squares that a list of bit positions stand for. */
  function SquaresOfBits(bits: seq<BitIndex>): (r: seq<Square>)
    ensures |r| == |bits| && forall k :: 0 <= k < |bits| ==> r[k] == SquareOfBit(bits[k])
  {
    seq(|bits|, k requires 0 <= k < |bits| => SquareOfBit(bits[k]))
  }

  lemma SquaresOfBitsCons(i: BitIndex, bits: seq<BitIndex>)
    ensures SquaresOfBits([i] + bits) == [SquareOfBit(i)] + SquaresOfBits(bits)
  {
  }

  /** The squares of a bitboard, from h8 down to a1. */
  function SquaresOf(b: Bitboard): (r: seq<Square>)
    ensures |r| == PopCount(b)
  {
    SquaresOfBits(SetBits(b))
  }

  /** One round of the square scan: the top square comes first. */
  lemma SquareScanStep(b: Bitboard, t: BitIndex)
    requires BitLength(b) > 0 && t == BitLength(b) - 1
    ensures SquaresOf(b) == [SquareOfBit(t)] + SquaresOf(b ^ (1 << t))
  {
    ScanStep(b, t);
    SquaresOfBitsCons(t, SetBits(b ^ (1 << t)));
  }

  /**
   * `reverse_scan_for_square`, yielding for bit i the square it stands
   * for, i + 1.
   */
  method ReverseScanForSquare(bitboard: Bitboard) returns (out: seq<Square>)
    ensures out == SquaresOf(bitboard)
  {
    var b := bitboard;
    out := [];
    while b != 0
      invariant out + SquaresOf(b) == SquaresOf(bitboard)
      decreases PopCount(b)
    {
      BitLengthSpec(b);
      var length: BitIndex := BitLength(b) - 1;
      SquareScanStep(b, length);
      out := out + [SquareOfBit(length)];
      b := b ^ (1 << length);
    }
    SetBitsEmpty();
  }

  /** The scan visits exactly the squares of the bitboard. */
  lemma SquaresOfMembers(b: Bitboard, s: Square)
    ensures s in SquaresOf(b) <==> Has(b, s)
  {
    var bits := SetBits(b);
    var sq := SquaresOf(b);
    SetBitsMembers(b, s - 1);
    HasIsBit(b, s);
    if s in sq {
      var k :| 0 <= k < |sq| && sq[k] == s;
      assert bits[k] == s - 1;
    }
    if s - 1 in bits {
      var k :| 0 <= k < |bits| && bits[k] == s - 1;
      assert sq[k] == s;
    }
  }

  /** The scan visits squares from the highest down, so none twice. */
  lemma SquaresOfDescending(b: Bitboard)
    ensures forall k, j :: 0 <= k < j < |SquaresOf(b)| ==> SquaresOf(b)[k] > SquaresOf(b)[j]
  {
    PositionsDescending(BitsOf(b), Width);
  }

  /** A bitboard whose scan yields one square is that square's mask. */
  lemma ScanOfOne(b: Bitboard)
    requires |SquaresOf(b)| == 1
    ensures b == FromSquare(SquaresOf(b)[0])
  {
    var s := SquaresOf(b)[0];
    forall t: Square
      ensures Has(b, t) == Has(FromSquare(s), t)
    {
      SquaresOfMembers(b, t);
      HasSquare(s, t);
    }
    BitboardExt(b, FromSquare(s));
  }

  /** The scan of a single square's mask yields that square alone. */
  lemma ScanOfSquare(s: Square)
    ensures |SquaresOf(FromSquare(s))| == 1
  {
    SquaresOfMembers(FromSquare(s), s);
    ScanOfSquareShort(s);
  }

  lemma ScanOfSquareShort(s: Square)
    ensures |SquaresOf(FromSquare(s))| < 2
  {
    var sq := SquaresOf(FromSquare(s));
    if |sq| >= 2 {
      SquaresOfDescending(FromSquare(s));
      assert sq[0] > sq[1];
      SquaresOfMembers(FromSquare(s), sq[0]);
      SquaresOfMembers(FromSquare(s), sq[1]);
      TwoSquaresNotOne(s, sq[0], sq[1]);
    }
  }

  /** A single square's mask does not hold two different squares. */
  lemma TwoSquaresNotOne(s: Square, t0: Square, t1: Square)
    requires t0 != t1
    ensures !(Has(FromSquare(s), t0) && Has(FromSquare(s), t1))
  {
    HasSquare(s, t0);
    HasSquare(s, t1);
  }

  /** The scan of the empty bitboard yields nothing. */
  lemma SquaresOfEmpty()
    ensures SquaresOf(0) == []
  {
    SetBitsEmpty();
  }

  /** A scan is empty exactly on the empty bitboard. */
  lemma ScanEmpty(b: Bitboard)
    ensures SquaresOf(b) == [] <==> b == 0
  {
    if b == 0 {
      SquaresOfEmpty();
    } else if SquaresOf(b) == [] {
      forall s: Square
        ensures Has(b, s) == Has(0, s)
      {
        SquaresOfMembers(b, s);
        EmptyHasNothing(s);
      }
      BitboardExt(b, 0);
    }
  }

  // ---------------------------------------------------------------------
  // The scan as written.

  /** `Square(value)`: the enum lookup raises a ValueError outside 1..64. */
  function SquareOfValue(value: int): (r: Result<Square>)
    ensures r.Success? <==> 1 <= value <= 64
    ensures r.Success? ==> r.value as int == value
  {
    if 1 <= value <= 64 then Success(value as bv8) else Failure(ValueError)
  }

  /** As written, the scan looks up the square whose number is the bit position itself. */
  function ScanValueAsWritten(i: BitIndex): Result<Square>
  {
    SquareOfValue(i as int)
  }

  /**
   * As written, scanning a board that holds a1 raises, and every other
   * square is reported as the square before it: e4 comes out as d4.
   */
  lemma ScanAsWrittenOffByOne()
    ensures ScanValueAsWritten(A1 - 1).Failure?
    ensures ScanValueAsWritten(E4 - 1) == Success(D4)
    ensures ScanValueAsWritten(H8 - 1) == Success(G8)
  {
  }

  // ---------------------------------------------------------------------
  // Or-ing bitboards together.

  /** Left fold of `|` over a sequence, starting from the empty bitboard. */
  function OrAll(bs: seq<Bitboard>): Bitboard
  {
    if bs == [] then 0 else OrAll(bs[..|bs| - 1]) | bs[|bs| - 1]
  }

  /**
   * `reduce_with_bitwise_or` as written: `functools.reduce` without an
   * initial value raises a TypeError on an empty argument list.
   */
  function ReduceWithBitwiseOr(bs: seq<Bitboard>): (r: Result<Bitboard>)
    ensures r.Failure? <==> bs == []
    ensures r.Success? ==> r.value == OrAll(bs)
  {
    if bs == [] then Failure(TypeError) else Success(OrAll(bs))
  }

  /** The union holds a square exactly when one of its parts does. */
  lemma {:induction false} OrAllHas(bs: seq<Bitboard>, s: Square)
    ensures Has(OrAll(bs), s) <==> exists k :: 0 <= k < |bs| && Has(bs[k], s)
    decreases |bs|
  {
    if bs == [] {
      EmptyHasNothing(s);
    } else {
      var init := bs[..|bs| - 1];
      OrAllHas(init, s);
      OrHas(OrAll(init), bs[|bs| - 1], s);
      if Has(OrAll(bs), s) && !Has(bs[|bs| - 1], s) {
        var k :| 0 <= k < |init| && Has(init[k], s);
        assert bs[k] == init[k];
      }
      if exists k :: 0 <= k < |bs| && Has(bs[k], s) {
        var k :| 0 <= k < |bs| && Has(bs[k], s);
        if k < |init| {
          assert init[k] == bs[k];
        }
      }
    }
  }

  /** Or-ing one more bitboard onto the fold. */
  lemma OrAllAppend(bs: seq<Bitboard>, b: Bitboard)
    ensures OrAll(bs + [b]) == OrAll(bs) | b
  {
    assert (bs + [b])[..|bs|] == bs;
  }

  /** Or-ing the single-square masks of some squares gives the bitboard of exactly those squares. */
  lemma SquareMasksHas(sq: seq<Square>, s: Square)
    ensures Has(OrAll(SquareMasks(sq)), s) <==> s in sq
  {
    var masks := SquareMasks(sq);
    OrAllHas(masks, s);
    if s in sq {
      var k :| 0 <= k < |sq| && sq[k] == s;
      HasSquare(s, s);
      assert Has(masks[k], s);
    }
    if exists k :: 0 <= k < |masks| && Has(masks[k], s) {
      var k :| 0 <= k < |masks| && Has(masks[k], s);
      HasSquare(sq[k], s);
    }
  }

  /** Or-ing the single-square masks of a scan rebuilds the scanned bitboard. */
  lemma ScanRebuilds(b: Bitboard, s: Square)
    ensures Has(OrAll(SquareMasks(SquaresOf(b))), s) <==> Has(b, s)
  {
    SquareMasksHas(SquaresOf(b), s);
    SquaresOfMembers(b, s);
  }

  /** The single-square masks of a list of squares. */
  function SquareMasks(sq: seq<Square>): (r: seq<Bitboard>)
    ensures |r| == |sq| && forall k :: 0 <= k < |sq| ==> r[k] == FromSquare(sq[k])
  {
    seq(|sq|, k requires 0 <= k < |sq| => FromSquare(sq[k]))
  }
}
