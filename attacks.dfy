/**
 * Attack masks: for a piece on a square (and, for the sliding pieces, the
 * occupied squares), the bitboard of squares it attacks. The `attack_masks`
 * module the engine imports is not part of this model; these are written
 * from the behaviour its tests fix: steppers reach their neighbours without
 * wrapping round the board's edge, and a sliding piece's ray runs up to and
 * including the first occupied square.
 */
module Attacks {
  import opened Wrappers
  import opened Squares
  import opened Bitboards
  import opened Pieces

  // ---------------------------------------------------------------------
  // Steps on the board.

  datatype Direction = North | South | East | West | NorthEast | NorthWest | SouthEast | SouthWest

  /**
   * t is one step from s in direction d: ranks and files change by the
   * step's amounts (the board's coordinates are kept non-negative, so a
   * decrease is written as the other side's increase).
   */
  predicate StepTo(s: Square, t: Square, d: Direction)
  {
    match d
    case North => Rank(t) == Rank(s) + 1 && File(t) == File(s)
    case South => Rank(s) == Rank(t) + 1 && File(t) == File(s)
    case East => Rank(t) == Rank(s) && File(t) == File(s) + 1
    case West => Rank(t) == Rank(s) && File(s) == File(t) + 1
    case NorthEast => Rank(t) == Rank(s) + 1 && File(t) == File(s) + 1
    case NorthWest => Rank(t) == Rank(s) + 1 && File(s) == File(t) + 1
    case SouthEast => Rank(s) == Rank(t) + 1 && File(t) == File(s) + 1
    case SouthWest => Rank(s) == Rank(t) + 1 && File(s) == File(t) + 1
  }

  /** The square one step away in a direction, None when the step leaves the board. */
  function Neighbour(s: Square, d: Direction): Option<Square>
  {
    match d
    case North => if Rank(s) < 8 then Some(s + 8) else None
    case South => if Rank(s) > 1 then Some(s - 8) else None
    case East => if File(s) < 8 then Some(s + 1) else None
    case West => if File(s) > 1 then Some(s - 1) else None
    case NorthEast => if Rank(s) < 8 && File(s) < 8 then Some(s + 9) else None
    case NorthWest => if Rank(s) < 8 && File(s) > 1 then Some(s + 7) else None
    case SouthEast => if Rank(s) > 1 && File(s) < 8 then Some(s - 7) else None
    case SouthWest => if Rank(s) > 1 && File(s) > 1 then Some(s - 9) else None
  }

  /** Neighbour finds exactly the square one step away, and None when there is none. */
  lemma NeighbourSpec(s: Square, d: Direction, t: Square)
    ensures Neighbour(s, d) == Some(t) <==> StepTo(s, t, d)
  {
    match d
    case North => StepNorth(s, t);
    case South => StepSouth(s, t);
    case East => StepEast(s, t);
    case West => StepWest(s, t);
    case NorthEast => StepNorthEast(s, t);
    case NorthWest => StepNorthWest(s, t);
    case SouthEast => StepSouthEast(s, t);
    case SouthWest => StepSouthWest(s, t);
  }

  lemma StepNorth(s: Square, t: Square)
    ensures (Rank(s) < 8 && t == s + 8) <==> StepTo(s, t, North)
  {
  }

  lemma StepSouth(s: Square, t: Square)
    ensures (Rank(s) > 1 && t == s - 8) <==> StepTo(s, t, South)
  {
  }

  lemma StepEast(s: Square, t: Square)
    ensures (File(s) < 8 && t == s + 1) <==> StepTo(s, t, East)
  {
  }

  lemma StepWest(s: Square, t: Square)
    ensures (File(s) > 1 && t == s - 1) <==> StepTo(s, t, West)
  {
  }

  lemma StepNorthEast(s: Square, t: Square)
    ensures (Rank(s) < 8 && File(s) < 8 && t == s + 9) <==> StepTo(s, t, NorthEast)
  {
  }

  lemma StepNorthWest(s: Square, t: Square)
    ensures (Rank(s) < 8 && File(s) > 1 && t == s + 7) <==> StepTo(s, t, NorthWest)
  {
  }

  lemma StepSouthEast(s: Square, t: Square)
    ensures (Rank(s) > 1 && File(s) < 8 && t == s - 7) <==> StepTo(s, t, SouthEast)
  {
  }

  lemma StepSouthWest(s: Square, t: Square)
    ensures (Rank(s) > 1 && File(s) > 1 && t == s - 9) <==> StepTo(s, t, SouthWest)
  {
  }

  /** The mask of an optional square, empty for None. */
  function MaskOf(o: Option<Square>): (b: Bitboard)
    ensures forall t: Square :: Has(b, t) <==> o == Some(t)
  {
    match o
    case None =>
      assert forall t: Square :: !Has(0, t) by {
        forall t: Square ensures !Has(0, t) { EmptyHasNothing(t); }
      }
      0
    case Some(s) =>
      assert forall t: Square :: Has(FromSquare(s), t) <==> s == t by {
        forall t: Square ensures Has(FromSquare(s), t) <==> s == t { HasSquare(s, t); }
      }
      FromSquare(s)
  }

  /** One step in a direction, as a function on squares. */
  function Step(d: Direction): Square -> Option<Square>
  {
    (s: Square) => Neighbour(s, d)
  }

  /**
   * The square k steps of `next` away, None once the walk has left the
   * board. Rays are stated over an arbitrary step function so that their
   * proofs never unfold the board arithmetic of `Neighbour`.
   */
  function Walk(next: Square -> Option<Square>, s: Square, k: nat): Option<Square>
    decreases k
  {
    if k == 0 then Some(s)
    else match next(s)
      case None => None
      case Some(u) => Walk(next, u, k - 1)
  }

  /** The first k - 1 squares of the walk are on the board and empty. */
  predicate ClearBefore(next: Square -> Option<Square>, s: Square, occ: Bitboard, k: nat)
  {
    forall j: nat :: 1 <= j < k ==> Walk(next, s, j).Some? && !Has(occ, Walk(next, s, j).value)
  }

  // ---------------------------------------------------------------------
  // Sliding pieces.

  /**
   * The squares a slider from s reaches in at most n steps: each next
   * square, and past it only when it is empty.
   */
  function Ray(next: Square -> Option<Square>, s: Square, occ: Bitboard, n: nat): Bitboard
    decreases n
  {
    if n == 0 then 0
    else match next(s)
      case None => 0
      case Some(u) => FromSquare(u) | (if Has(occ, u) then 0 else Ray(next, u, occ, n - 1))
  }

  /** A full ray in a direction: seven steps cross the whole board. */
  function Slide(s: Square, occ: Bitboard, d: Direction): Bitboard
  {
    Ray(Step(d), s, occ, 7)
  }

  function RankMoves(s: Square, occ: Bitboard): Bitboard
  {
    Slide(s, occ, East) | Slide(s, occ, West)
  }

  function FileMoves(s: Square, occ: Bitboard): Bitboard
  {
    Slide(s, occ, North) | Slide(s, occ, South)
  }

  function DiagonalMoves(s: Square, occ: Bitboard): Bitboard
  {
    Slide(s, occ, NorthEast) | Slide(s, occ, NorthWest) | Slide(s, occ, SouthEast) | Slide(s, occ, SouthWest)
  }

  lemma ClearBeforeStep(next: Square -> Option<Square>, s: Square, u: Square, occ: Bitboard, k: nat)
    requires next(s) == Some(u) && k >= 1
    ensures ClearBefore(next, s, occ, k + 1) <==> !Has(occ, u) && ClearBefore(next, u, occ, k)
  {
    assert Walk(next, s, 1) == Some(u);
    forall j: nat | 1 <= j < k + 1
      ensures Walk(next, s, j) == Walk(next, u, j - 1)
    {
    }
    if !Has(occ, u) && ClearBefore(next, u, occ, k) {
      forall j: nat | 1 <= j < k + 1
        ensures Walk(next, s, j).Some? && !Has(occ, Walk(next, s, j).value)
      {
        if j > 1 {
          assert 1 <= j - 1 < k;
        }
      }
    }
    if ClearBefore(next, s, occ, k + 1) {
      assert !Has(occ, u) by {
        assert 1 <= 1 < k + 1;
      }
      forall j: nat | 1 <= j < k
        ensures Walk(next, u, j).Some? && !Has(occ, Walk(next, u, j).value)
      {
        assert 1 <= j + 1 < k + 1;
        assert Walk(next, s, j + 1) == Walk(next, u, j);
      }
    }
  }

  lemma RayFirstStep(next: Square -> Option<Square>, s: Square, u: Square, occ: Bitboard, n: nat)
    requires n >= 1 && next(s) == Some(u)
    ensures Ray(next, s, occ, n) == FromSquare(u) | (if Has(occ, u) then 0 else Ray(next, u, occ, n - 1))
  {
  }

  lemma HasExtended(r: Bitboard, rest: Bitboard, u: Square, occ: Bitboard, t: Square)
    requires r == FromSquare(u) | (if Has(occ, u) then 0 else rest)
    ensures Has(r, t) <==> t == u || (!Has(occ, u) && Has(rest, t))
  {
    var tail := if Has(occ, u) then 0 else rest;
    OrHas(FromSquare(u), tail, t);
    HasSquare(u, t);
    if Has(occ, u) {
      EmptyHasNothing(t);
      ExtendedCases(Has(r, t), Has(FromSquare(u) | tail, t), t == u, Has(tail, t), true, Has(rest, t));
    } else {
      ExtendedCases(Has(r, t), Has(FromSquare(u) | tail, t), t == u, Has(tail, t), false, Has(rest, t));
    }
  }

  lemma ExtendedCases(inR: bool, inUnion: bool, atU: bool, inTail: bool, blocked: bool, inRest: bool)
    requires inR == inUnion && (inUnion <==> atU || inTail)
    requires blocked ==> !inTail
    requires !blocked ==> (inTail <==> inRest)
    ensures inR <==> atU || (!blocked && inRest)
  {
  }

  /** One unfolding of a ray: the next square, then, past it if it is empty, the shorter ray. */
  lemma RayUnfold(next: Square -> Option<Square>, s: Square, u: Square, occ: Bitboard, n: nat, t: Square)
    requires n >= 1 && next(s) == Some(u)
    ensures Has(Ray(next, s, occ, n), t) <==> t == u || (!Has(occ, u) && Has(Ray(next, u, occ, n - 1), t))
  {
    RayFirstStep(next, s, u, occ, n);
    HasExtended(Ray(next, s, occ, n), Ray(next, u, occ, n - 1), u, occ, t);
  }

  /** Every square of a ray lies k <= n steps along the walk, past k - 1 empty squares. */
  lemma {:induction false} RaySound(next: Square -> Option<Square>, s: Square, occ: Bitboard, n: nat, t: Square)
    requires Has(Ray(next, s, occ, n), t)
    ensures exists k: nat :: 1 <= k <= n && Walk(next, s, k) == Some(t) && ClearBefore(next, s, occ, k)
    decreases n
  {
    if n == 0 || next(s).None? {
      EmptyHasNothing(t);
    } else {
      var u := next(s).value;
      RayUnfold(next, s, u, occ, n, t);
      assert Walk(next, s, 1) == Some(u);
      if t == u {
        assert ClearBefore(next, s, occ, 1);
      } else {
        RaySound(next, u, occ, n - 1, t);
        var k: nat :| 1 <= k <= n - 1 && Walk(next, u, k) == Some(t) && ClearBefore(next, u, occ, k);
        ClearBeforeStep(next, s, u, occ, k);
        assert Walk(next, s, k + 1) == Some(t);
      }
    }
  }

  /** Every square k <= n steps along the walk, past k - 1 empty squares, is on the ray. */
  lemma {:induction false} RayComplete(next: Square -> Option<Square>, s: Square, occ: Bitboard, n: nat, t: Square, k: nat)
    requires 1 <= k <= n && Walk(next, s, k) == Some(t) && ClearBefore(next, s, occ, k)
    ensures Has(Ray(next, s, occ, n), t)
    decreases n
  {
    var u := next(s).value;
    RayUnfold(next, s, u, occ, n, t);
    if k > 1 {
      ClearBeforeStep(next, s, u, occ, k - 1);
      assert Walk(next, u, k - 1) == Some(t);
      RayComplete(next, u, occ, n - 1, t, k - 1);
    }
  }

  /**
   * A ray holds exactly the squares k <= n steps away whose k - 1
   * predecessors on the walk are empty: it stops at, and includes, the
   * first occupied square.
   */
  lemma RaySpec(next: Square -> Option<Square>, s: Square, occ: Bitboard, n: nat, t: Square)
    ensures Has(Ray(next, s, occ, n), t) <==>
      exists k: nat :: 1 <= k <= n && Walk(next, s, k) == Some(t) && ClearBefore(next, s, occ, k)
  {
    if Has(Ray(next, s, occ, n), t) {
      RaySound(next, s, occ, n, t);
    }
    if exists k: nat :: 1 <= k <= n && Walk(next, s, k) == Some(t) && ClearBefore(next, s, occ, k) {
      var k: nat :| 1 <= k <= n && Walk(next, s, k) == Some(t) && ClearBefore(next, s, occ, k);
      RayComplete(next, s, occ, n, t, k);
    }
  }

  // ---------------------------------------------------------------------
  // Stepping pieces.

  const NotA: Bitboard := !0x0101_0101_0101_0101
  const NotH: Bitboard := !0x8080_8080_8080_8080
  const NotAB: Bitboard := !0x0303_0303_0303_0303
  const NotGH: Bitboard := !0xc0c0_c0c0_c0c0_c0c0

  /** Knight moves: the eight shifts, each masked against wrapping round an edge. */
  function KnightMoves(s: Square): Bitboard
  {
    var b := FromSquare(s);
    ((b << 17) & NotA) | ((b << 15) & NotH) | ((b << 10) & NotAB) | ((b << 6) & NotGH)
    | ((b >> 6) & NotAB) | ((b >> 10) & NotGH) | ((b >> 15) & NotA) | ((b >> 17) & NotH)
  }

  /** King moves: the eight neighbouring shifts, masked against wrapping. */
  function KingMoves(s: Square): Bitboard
  {
    var b := FromSquare(s);
    (b << 8) | (b >> 8) | ((b << 1) & NotA) | ((b >> 1) & NotH)
    | ((b << 9) & NotA) | ((b << 7) & NotH) | ((b >> 7) & NotA) | ((b >> 9) & NotH)
  }

  /** A knight reaches exactly the squares one rank and two files, or two ranks and one file, away. */
  lemma KnightSpec(s: Square, t: Square)
    ensures Has(KnightMoves(s), t) <==>
      (Dist(Rank(s), Rank(t)) == 1 && Dist(File(s), File(t)) == 2)
      || (Dist(Rank(s), Rank(t)) == 2 && Dist(File(s), File(t)) == 1)
  {
  }

  /** A king reaches exactly the other squares at most one rank and one file away. */
  lemma KingSpec(s: Square, t: Square)
    ensures Has(KingMoves(s), t) <==> s != t && Dist(Rank(s), Rank(t)) <= 1 && Dist(File(s), File(t)) <= 1
  {
  }

  /** Pawn attacks: the two forward diagonals, forward being up the board for white. */
  function PawnAttacks(s: Square, white: bool): Bitboard
  {
    if white then MaskOf(Neighbour(s, NorthEast)) | MaskOf(Neighbour(s, NorthWest))
    else MaskOf(Neighbour(s, SouthEast)) | MaskOf(Neighbour(s, SouthWest))
  }

  /** A pawn attacks the squares one file aside and one rank forward for its colour. */
  lemma PawnAttacksSpec(s: Square, white: bool, t: Square)
    ensures Has(PawnAttacks(s, white), t) <==>
      Dist(File(s), File(t)) == 1 && (if white then Rank(t) == Rank(s) + 1 else Rank(s) == Rank(t) + 1)
  {
    if white {
      OrHas(MaskOf(Neighbour(s, NorthEast)), MaskOf(Neighbour(s, NorthWest)), t);
    } else {
      OrHas(MaskOf(Neighbour(s, SouthEast)), MaskOf(Neighbour(s, SouthWest)), t);
    }
  }

  // ---------------------------------------------------------------------
  // The dispatch on the piece type.

  /**
   * `non_pawn_move_mask`: the attack mask of a piece by its type; a queen
   * combines the rook's and the bishop's lines. A pawn gets no mask here.
   */
  function NonPawnMoveMask(s: Square, p: Piece, occ: Bitboard): Bitboard
  {
    match Kind(p)
    case 2 => KnightMoves(s)
    case 3 => DiagonalMoves(s, occ)
    case 4 => RankMoves(s, occ) | FileMoves(s, occ)
    case 5 => RankMoves(s, occ) | FileMoves(s, occ) | DiagonalMoves(s, occ)
    case 6 => KingMoves(s)
    case _ => 0
  }

  /** The dispatch depends on the piece type only, not on its colour. */
  lemma MaskIgnoresColour(s: Square, p: Piece, q: Piece, occ: Bitboard)
    requires q as int == -(p as int)
    ensures NonPawnMoveMask(s, p, occ) == NonPawnMoveMask(s, q, occ)
  {
  }

  // ---------------------------------------------------------------------
  // The values the attack-mask tests check.

  lemma PawnAttackExamples()
    ensures PawnAttacks(A2, true) == FromSquare(B3) && PawnAttacks(A2, false) == FromSquare(B1)
    ensures PawnAttacks(D5, true) == FromSquare(E6) | FromSquare(C6)
    ensures PawnAttacks(D5, false) == FromSquare(C4) | FromSquare(E4)
    ensures PawnAttacks(H8, true) == 0 && PawnAttacks(H8, false) == FromSquare(G7)
  {
  }

  lemma StepperExamples()
    ensures KnightMoves(H8) == FromSquare(F7) | FromSquare(G6)
    ensures KnightMoves(E4) == FromSquare(D6) | FromSquare(F6) | FromSquare(G5) | FromSquare(G3)
      | FromSquare(F2) | FromSquare(D2) | FromSquare(C3) | FromSquare(C5)
    ensures KingMoves(H8) == FromSquare(G8) | FromSquare(G7) | FromSquare(H7)
    ensures KingMoves(E4) == FromSquare(D5) | FromSquare(D4) | FromSquare(D3) | FromSquare(E3)
      | FromSquare(E5) | FromSquare(F5) | FromSquare(F4) | FromSquare(F3)
  {
  }

  lemma RankMoveExample()
    ensures RankMoves(D5, 0) == RankMask(5) & !FromSquare(D5)
  {
  }

  lemma RankMoveBlockedExample()
    ensures RankMoves(A1, FromSquare(F1)) == RankMask(1) & !(FromSquare(G1) | FromSquare(H1) | FromSquare(A1))
  {
  }

  lemma FileMoveExample()
    ensures FileMoves(D5, 0) == FileMask(4) & !FromSquare(D5)
  {
  }

  lemma FileMoveBlockedExample()
    ensures FileMoves(A1, FromSquare(A7)) == FileMask(1) & !(FromSquare(A8) | FromSquare(A1))
  {
  }

  lemma DiagonalMoveExample()
    ensures DiagonalMoves(A1, 0) == FromSquare(B2) | FromSquare(C3) | FromSquare(D4) | FromSquare(E5)
      | FromSquare(F6) | FromSquare(G7) | FromSquare(H8)
  {
  }

  lemma DiagonalMoveBlockedExample()
    ensures DiagonalMoves(F3, FromSquare(E2)) == FromSquare(B7) | FromSquare(C6) | FromSquare(D5)
      | FromSquare(E4) | FromSquare(A8) | FromSquare(G2) | FromSquare(H1) | FromSquare(G4)
      | FromSquare(H5) | FromSquare(E2)
  {
  }

  /** The lines through c2 on an empty board. */
  lemma RankThroughC2()
    ensures RankMoves(C2, 0) == RankMask(2) & !FromSquare(C2)
  {
  }

  lemma FileThroughC2()
    ensures FileMoves(C2, 0) == FileMask(3) & !FromSquare(C2)
  {
  }

  lemma DiagonalsThroughC2()
    ensures DiagonalMoves(C2, 0) == FromSquare(B1) | FromSquare(D1) | FromSquare(B3) | FromSquare(A4)
        | FromSquare(D3) | FromSquare(E4) | FromSquare(F5) | FromSquare(G6) | FromSquare(H7)
  {
  }

  /** The rook, bishop and queen on c2 of an empty board, for both colours. */
  lemma RookMaskExample()
    ensures NonPawnMoveMask(C2, Rook, 0) == (FileMask(3) | RankMask(2)) & !FromSquare(C2)
    ensures NonPawnMoveMask(C2, -4, 0) == NonPawnMoveMask(C2, Rook, 0)
  {
    RankThroughC2();
    FileThroughC2();
    MaskIgnoresColour(C2, Rook, -4, 0);
  }

  lemma BishopMaskExample()
    ensures NonPawnMoveMask(C2, Bishop, 0) == FromSquare(B1) | FromSquare(D1) | FromSquare(B3)
        | FromSquare(A4) | FromSquare(D3) | FromSquare(E4) | FromSquare(F5) | FromSquare(G6) | FromSquare(H7)
    ensures NonPawnMoveMask(C2, -3, 0) == NonPawnMoveMask(C2, Bishop, 0)
  {
    DiagonalsThroughC2();
    MaskIgnoresColour(C2, Bishop, -3, 0);
  }

  /** A queen reaches what a rook and a bishop on its square reach together. */
  lemma QueenIsRookAndBishop(s: Square, occ: Bitboard)
    ensures NonPawnMoveMask(s, Queen, occ) == NonPawnMoveMask(s, Rook, occ) | NonPawnMoveMask(s, Bishop, occ)
  {
  }

  /** The knight and king on c2 of an empty board, for both colours. */
  lemma StepperMaskExamples()
    ensures var knight := FromSquare(B4) | FromSquare(D4) | FromSquare(A3) | FromSquare(E3)
        | FromSquare(E1) | FromSquare(A1);
      NonPawnMoveMask(C2, Knight, 0) == knight && NonPawnMoveMask(C2, -2, 0) == knight
    ensures var king := FromSquare(C3) | FromSquare(C1) | FromSquare(B3) | FromSquare(B2)
        | FromSquare(B1) | FromSquare(D3) | FromSquare(D2) | FromSquare(D1);
      NonPawnMoveMask(C2, King, 0) == king && NonPawnMoveMask(C2, -6, 0) == king
  {
  }
}
