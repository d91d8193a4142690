/**
 * Castling rights and the en-passant square (`SpecialMoveBitboards`,
 * bitboard_collections.py). The castling rooks and kings are the pieces that
 * have not moved yet; the en-passant bitboard holds the square a pawn has just
 * skipped with a double step, or nothing.
 */
module Special {
  import opened Squares
  import opened Bitboards
  import opened Moves
  import opened Position

  datatype SpecialMoveBitboards = SpecialMoveBitboards(
    castlingRooks: Bitboard,
    castlingKings: Bitboard,
    epBitboard: Bitboard)

  /** The rooks still able to castle queenside: those on the a-file. */
  function QueensideCastling(sp: SpecialMoveBitboards): Bitboard
  {
    sp.castlingRooks & FileMask(1)
  }

  /** The rooks still able to castle kingside: those on the h-file. */
  function KingsideCastling(sp: SpecialMoveBitboards): Bitboard
  {
    sp.castlingRooks & FileMask(8)
  }

  /** Queenside rights are exactly the castling rooks on the a-file. */
  lemma QueensideHas(sp: SpecialMoveBitboards, s: Square)
    ensures Has(QueensideCastling(sp), s) <==> Has(sp.castlingRooks, s) && File(s) == 1
  {
    AndHas(sp.castlingRooks, FileMask(1), s);
    FileHas(1, s);
  }

  /** Kingside rights are exactly the castling rooks on the h-file. */
  lemma KingsideHas(sp: SpecialMoveBitboards, s: Square)
    ensures Has(KingsideCastling(sp), s) <==> Has(sp.castlingRooks, s) && File(s) == 8
  {
    AndHas(sp.castlingRooks, FileMask(8), s);
    FileHas(8, s);
  }

  /** Every rook and both kings may castle; no en-passant square. */
  function NewGame(): SpecialMoveBitboards
  {
    SpecialMoveBitboards(
      castlingRooks := FromSquare(A1) | FromSquare(H1) | FromSquare(A8) | FromSquare(H8),
      castlingKings := FromSquare(E1) | FromSquare(E8),
      epBitboard := 0)
  }

  /** At the start the queenside rooks are a1 and a8, the kingside rooks h1 and h8. */
  lemma NewGameRights()
    ensures QueensideCastling(NewGame()) == FromSquare(A1) | FromSquare(A8)
    ensures KingsideCastling(NewGame()) == FromSquare(H1) | FromSquare(H8)
    ensures NewGame().castlingKings == FromSquare(E1) | FromSquare(E8)
    ensures NewGame().epBitboard == 0
  {
  }

  /** A pawn's double step from its starting rank: 2 to 4, or 7 to 5. */
  predicate DoubleStep(b: ChessBitboards, m: Move)
  {
    Has(b.pawns, m.frm)
    && ((Rank(m.frm) == 2 && Rank(m.to) == 4) || (Rank(m.frm) == 7 && Rank(m.to) == 5))
  }

  /**
   * `Square(((frm.rank + to.rank) / 2 - 1) * 8 + frm.file)`: the square on the
   * origin's file halfway between the two ranks. The division is exact on a
   * double step, so Python's float division gives the same square.
   */
  function SkippedSquare(m: Move): (s: Square)
    requires (Rank(m.frm) == 2 && Rank(m.to) == 4) || (Rank(m.frm) == 7 && Rank(m.to) == 5)
    ensures File(s) == File(m.frm)
    ensures 2 * (Rank(s) as int) == Rank(m.frm) as int + Rank(m.to) as int
  {
    var v := ((Rank(m.frm) as int + Rank(m.to) as int) / 2 - 1) * 8 + File(m.frm) as int;
    v as bv8
  }

  /** The squares from which a move takes away a king's castling right. */
  predicate KingHome(s: Square)
  {
    s == E1 || s == E8
  }

  /** The squares from which a move takes away a rook's castling right. */
  predicate RookHome(s: Square)
  {
    s == A1 || s == A8 || s == H1 || s == H8
  }

  /** `bb & ~Bitboard.from_square(s)`: the board without s. */
  function Without(bb: Bitboard, s: Square): Bitboard
  {
    bb & !FromSquare(s)
  }

  /** `update`: the rights and en-passant square after a move, read off its origin. */
  function Update(sp: SpecialMoveBitboards, b: ChessBitboards, m: Move): SpecialMoveBitboards
  {
    SpecialMoveBitboards(
      RookRightsAfter(sp.castlingRooks, m),
      KingRightsAfter(sp.castlingKings, m),
      EnPassantAfter(b, m))
  }

  /** The en-passant bitboard after a move: the skipped square of a double step, else empty. */
  function EnPassantAfter(b: ChessBitboards, m: Move): Bitboard
  {
    if DoubleStep(b, m) then FromSquare(SkippedSquare(m)) else 0
  }

  /** A king right is lost by a move from e1 or e8. */
  function KingRightsAfter(kings: Bitboard, m: Move): Bitboard
  {
    if kings != 0 && KingHome(m.frm) then Without(kings, m.frm) else kings
  }

  /** A rook right is lost by a move from a corner. */
  function RookRightsAfter(rooks: Bitboard, m: Move): Bitboard
  {
    if rooks != 0 && RookHome(m.frm) then Without(rooks, m.frm) else rooks
  }

  /** `update` step by step: each of the three results starts from its old value and is tested once. */
  method UpdateSteps(sp: SpecialMoveBitboards, b: ChessBitboards, m: Move) returns (r: SpecialMoveBitboards)
    ensures r == Update(sp, b, m)
  {
    var epSqr: Bitboard := 0;
    var kings := sp.castlingKings;
    var rooks := sp.castlingRooks;
    MeetsSquare(b.pawns, m.frm);
    if Meets(FromSquare(m.frm), b.pawns)
      && ((Rank(m.frm) == 2 && Rank(m.to) == 4) || (Rank(m.frm) == 7 && Rank(m.to) == 5))
    {
      epSqr := FromSquare(SkippedSquare(m));
    }
    assert epSqr == EnPassantAfter(b, m);
    if kings != 0 && m.frm in {E1, E8} {
      kings := Without(kings, m.frm);
    }
    assert kings == KingRightsAfter(sp.castlingKings, m);
    if rooks != 0 && m.frm in {A1, A8, H1, H8} {
      rooks := Without(rooks, m.frm);
    }
    assert rooks == RookRightsAfter(sp.castlingRooks, m);
    r := SpecialMoveBitboards(rooks, kings, epSqr);
  }

  /** Removing a square removes exactly that square. */
  lemma WithoutHas(bb: Bitboard, s: Square, t: Square)
    ensures Has(Without(bb, s), t) <==> t != s && Has(bb, t)
  {
    ClearHas(bb, s, t);
  }

  /**
   * The en-passant square is set exactly after a pawn's double step and then
   * holds only the skipped square; the old one never carries over.
   */
  lemma UpdateEnPassant(sp: SpecialMoveBitboards, b: ChessBitboards, m: Move, t: Square)
    ensures var ep := Update(sp, b, m).epBitboard;
      && (ep != 0 <==> DoubleStep(b, m))
      && (Has(ep, t) <==> (DoubleStep(b, m) && File(t) == File(m.frm)
           && 2 * (Rank(t) as int) == Rank(m.frm) as int + Rank(m.to) as int))
  {
    if DoubleStep(b, m) {
      var s := SkippedSquare(m);
      assert Update(sp, b, m).epBitboard == FromSquare(s);
      SingleBit(s);
      HasSquare(s, t);
      SquareCoordinates(s, t);
    } else {
      EmptyHasNothing(t);
    }
  }

  /** Two squares are the same exactly when their ranks and files are. */
  lemma SquareCoordinates(s: Square, t: Square)
    ensures s == t <==> Rank(s) == Rank(t) && File(s) == File(t)
  {
    RankFileRoundTrip(s);
    RankFileRoundTrip(t);
  }

  /** The new state does not depend on the old en-passant square. */
  lemma UpdateForgetsEnPassant(sp: SpecialMoveBitboards, ep: Bitboard, b: ChessBitboards, m: Move)
    ensures Update(sp, b, m) == Update(sp.(epBitboard := ep), b, m)
  {
  }

  /**
   * A king keeps its right unless the move starts on its home square e1 or
   * e8; a move does not touch any other king right.
   */
  lemma UpdateKingRights(sp: SpecialMoveBitboards, b: ChessBitboards, m: Move, t: Square)
    ensures Has(Update(sp, b, m).castlingKings, t) <==>
      Has(sp.castlingKings, t) && !(KingHome(m.frm) && t == m.frm)
  {
    WithoutHas(sp.castlingKings, m.frm, t);
  }

  /**
   * A rook keeps its right unless the move starts on its corner a1, a8, h1
   * or h8; a move does not touch any other rook right.
   */
  lemma UpdateRookRights(sp: SpecialMoveBitboards, b: ChessBitboards, m: Move, t: Square)
    ensures Has(Update(sp, b, m).castlingRooks, t) <==>
      Has(sp.castlingRooks, t) && !(RookHome(m.frm) && t == m.frm)
  {
    WithoutHas(sp.castlingRooks, m.frm, t);
  }

  /** A king's move leaves the rook rights alone, a rook's move the king rights. */
  lemma UpdateSeparatesRights(sp: SpecialMoveBitboards, b: ChessBitboards, m: Move)
    ensures KingHome(m.frm) ==> Update(sp, b, m).castlingRooks == sp.castlingRooks
    ensures RookHome(m.frm) ==> Update(sp, b, m).castlingKings == sp.castlingKings
  {
  }

  /** Rights are never granted: the new rights are a subset of the old ones. */
  lemma UpdateMonotone(sp: SpecialMoveBitboards, b: ChessBitboards, m: Move)
    ensures Update(sp, b, m).castlingRooks & !sp.castlingRooks == 0
    ensures Update(sp, b, m).castlingKings & !sp.castlingKings == 0
  {
    RookRightsShrink(sp.castlingRooks, m);
    KingRightsShrink(sp.castlingKings, m);
  }

  lemma RookRightsShrink(rooks: Bitboard, m: Move)
    ensures RookRightsAfter(rooks, m) & !rooks == 0
  {
    if rooks != 0 && RookHome(m.frm) {
      WithoutSubset(rooks, m.frm);
    } else {
      SelfSubset(rooks);
    }
  }

  lemma KingRightsShrink(kings: Bitboard, m: Move)
    ensures KingRightsAfter(kings, m) & !kings == 0
  {
    if kings != 0 && KingHome(m.frm) {
      WithoutSubset(kings, m.frm);
    } else {
      SelfSubset(kings);
    }
  }

  lemma SelfSubset(bb: Bitboard)
    ensures bb & !bb == 0
  {
  }

  lemma WithoutSubset(bb: Bitboard, s: Square)
    ensures Without(bb, s) & !bb == 0
  {
  }

  /** The double steps of the a-pawns from the start: a2-a4 leaves a3, a7-a5 leaves a6. */
  lemma WhiteEnPassantExample()
    ensures var after := Update(NewGame(), Position.NewGame(), SimpleMove(A4, A2));
      after.epBitboard == FromSquare(A3)
      && after.castlingRooks | after.castlingKings == NewGame().castlingRooks | NewGame().castlingKings
  {
  }

  lemma BlackEnPassantExample()
    ensures var after := Update(NewGame(), Position.NewGame(), SimpleMove(A5, A7));
      after.epBitboard == FromSquare(A6)
      && after.castlingRooks | after.castlingKings == NewGame().castlingRooks | NewGame().castlingKings
  {
  }

  /** A king leaving its home square loses only its own right. */
  lemma KingMoveExamples()
    ensures Update(NewGame(), Position.NewGame(), SimpleMove(D5, E1))
      == SpecialMoveBitboards(NewGame().castlingRooks, FromSquare(E8), 0)
    ensures Update(NewGame(), Position.NewGame(), SimpleMove(D5, E8))
      == SpecialMoveBitboards(NewGame().castlingRooks, FromSquare(E1), 0)
  {
  }

  /** A rook leaving its corner loses only its own right. */
  lemma RookMoveExamples(s: Square)
    requires s == H1 || s == A1 || s == H8 || s == A8
    ensures Update(NewGame(), Position.NewGame(), SimpleMove(D5, s))
      == SpecialMoveBitboards(!FromSquare(s) & NewGame().castlingRooks, NewGame().castlingKings, 0)
  {
  }

  /**
   * Rights are read off the move's origin only. After the lone king castles
   * e1-g1 with the rook h1-f1, the king's right is gone but the rook's right on
   * h1 stays, as the square h1 is not the move's origin.
   */
  lemma CastlingKeepsRookRight()
    ensures var lone := SpecialMoveBitboards(FromSquare(H1), FromSquare(E1), 0);
      var board := ChessBitboards(0, FromSquare(E1) | FromSquare(H1), 0, 0, 0,
        FromSquare(H1), 0, FromSquare(E1));
      var after := Update(lone, board, CastlingMove(G1, E1, F1, H1));
      after.castlingKings == 0 && after.castlingRooks == FromSquare(H1) && after.epBitboard == 0
  {
  }
}
