/**
 * The earliest draft of the bitboards (bitboards.py). Its `from_rank`,
 * `from_square` and constructor check are those of the bitboard module and
 * its scan is the scan of bit positions; what differs is modelled here:
 * `from_file` shifts by whole ranks, `piece_at` counts the types from 0,
 * `new_game` swaps knights and bishops and puts a rook on h7, and
 * `make_move` moves one square to another in each board and nothing else.
 */
module DraftBitboards {
  import opened Wrappers
  import opened Squares
  import opened Bitboards
  import opened BitScan
  import opened Pieces
  import opened Moves
  import Position
  import Collections

  type ChessBitboards = Position.ChessBitboards

  // ---------------------------------------------------------------------
  // from_file

  /** `from_file` as written: the a-file shifted by (f - 1) * 8 bits, a Python integer that may pass 64 bits. */
  function FromFileAsWritten(f: int): (r: Result<nat>)
    ensures r.Failure? <==> !(1 <= f <= 8)
    ensures r.Failure? ==> r.error == ValueError
  {
    if 0 < f < 9 then Success(0x0101_0101_0101_0101 * Pow2((f - 1) * 8)) else Failure(ValueError)
  }

  /**
   * The b-file as written is the a-file moved up one rank, with its top
   * square pushed past h8: 2^64 plus a2 up to a8.
   */
  lemma FromFileAsWrittenShiftsRanks()
    ensures FromFileAsWritten(2) == Success(Pow2(64) + 0x0101_0101_0101_0100)
  {
    assert Pow2(8) == 256 by {
      assert Pow2(4) == 16;
    }
    Pow64();
  }

  /** On the board that is a2 up to a8: it holds a2 but not b1, where the bitboard module's b-file holds b1 and not a2. */
  lemma FromFileAsWrittenSquares()
    ensures 0x0101_0101_0101_0100 == FileMask(1) & !RankMask(1)
    ensures Has(0x0101_0101_0101_0100, A2) && !Has(0x0101_0101_0101_0100, B1)
    ensures Has(FileMask(2), B1) && !Has(FileMask(2), A2)
  {
  }

  // ---------------------------------------------------------------------
  // piece_at

  /**
   * `piece_at` as written: the colour's sign, then the first type board
   * holding the square, counted from 0, so type k is read as `Piece((k - 1) * sign)`:
   * a pawn is `Piece(0)`, a ValueError, and every other type reads as the one
   * below it. None when no colour or no type board holds the square.
   */
  function PieceAtAsWritten(b: ChessBitboards, s: Square): Result<Option<Piece>>
  {
    match Collections.ColourSign(b, s)
    case None => Success(None)
    case Some(sign) =>
      match Collections.FirstType(b, s, 1)
      case None => Success(None)
      case Some(k) =>
        match PieceOf((k - 1) * sign)
        case Failure(e) => Failure(e)
        case Success(p) => Success(Some(p))
  }

  /**
   * Against the earlier version's `piece_at`, which counts from 1: a pawn
   * raises, and any other piece comes back as the type one lower, the same
   * colour.
   */
  lemma PieceAtAsWrittenShifted(b: ChessBitboards, s: Square)
    ensures Collections.PieceAt(b, s).None? <==> PieceAtAsWritten(b, s) == Success(None)
    ensures (Collections.PieceAt(b, s).Some? && Kind(Collections.PieceAt(b, s).value) == 1) <==>
      PieceAtAsWritten(b, s).Failure?
    ensures PieceAtAsWritten(b, s).Failure? ==> PieceAtAsWritten(b, s).error == ValueError
    ensures PieceAtAsWritten(b, s).Success? && PieceAtAsWritten(b, s).value.Some? ==>
      && Collections.PieceAt(b, s).Some?
      && Kind(PieceAtAsWritten(b, s).value.value) == Kind(Collections.PieceAt(b, s).value) - 1
      && (IsWhite(PieceAtAsWritten(b, s).value.value) <==> IsWhite(Collections.PieceAt(b, s).value))
  {
  }

  /** On the standard position the draft raises on a pawn and reads the knight on b1 as a pawn. */
  lemma PieceAtAsWrittenExamples()
    ensures PieceAtAsWritten(Position.NewGame(), E2) == Failure(ValueError)
    ensures PieceAtAsWritten(Position.NewGame(), B1) == Success(Some(Pawn))
    ensures PieceAtAsWritten(Position.NewGame(), E8) == Success(Some(-5))
    ensures Collections.PieceAt(Position.NewGame(), B1) == Some(Knight)
  {
  }

  // ---------------------------------------------------------------------
  // new_game

  /** `new_game` as written: knights on c1, f1, b8 and f8, bishops on b1, g1, a8 and g8, rooks on a1, h1, h7 and h8. */
  function NewGameAsWritten(): ChessBitboards
  {
    Position.ChessBitboards(
      black := RankMask(7) | RankMask(8),
      white := RankMask(1) | RankMask(2),
      pawns := RankMask(7) | RankMask(2),
      knights := FromSquare(C1) | FromSquare(F1) | FromSquare(B8) | FromSquare(F8),
      bishops := FromSquare(B1) | FromSquare(G1) | FromSquare(A8) | FromSquare(G8),
      rooks := FromSquare(A1) | FromSquare(H1) | FromSquare(H7) | FromSquare(H8),
      queens := FromSquare(D1) | FromSquare(D8),
      kings := FromSquare(E1) | FromSquare(E8))
  }

  /**
   * Against the standard layout: c1 holds a knight instead of a bishop, h7
   * is on both the pawn and the rook board, and c8 is on the black board but
   * on no type board.
   */
  lemma NewGameAsWrittenMisplaces()
    ensures NewGameAsWritten() != Position.NewGame()
    ensures Collections.PieceAt(NewGameAsWritten(), C1) == Some(Knight)
    ensures Collections.PieceAt(Position.NewGame(), C1) == Some(Bishop)
    ensures Has(NewGameAsWritten().pawns, H7) && Has(NewGameAsWritten().rooks, H7)
    ensures Has(NewGameAsWritten().black, C8) && Collections.PieceAt(NewGameAsWritten(), C8) == None
  {
  }

  // ---------------------------------------------------------------------
  // make_move

  /**
   * The inner `f` of `make_move`: a board holding the origin loses it and
   * gains the target, one holding only the target loses it, any other is
   * unchanged.
   */
  function Step(bb: Bitboard, frm: Bitboard, to: Bitboard): Bitboard
  {
    if Meets(bb, frm) then (bb ^ frm) | to
    else if Meets(bb, to) then bb ^ to
    else bb
  }

  /** `make_move` as written: the step on each of the eight boards; rook and promotion fields are ignored. */
  function MakeMove(b: ChessBitboards, m: Move): ChessBitboards
  {
    Position.FromBoards(seq(8, i requires 0 <= i < 8 => Step(Position.Boards(b)[i], FromSquare(m.frm), FromSquare(m.to))))
  }

  /** What a board holds after the step, square by square. */
  lemma StepHas(bb: Bitboard, frm: Square, to: Square, t: Square)
    ensures Has(Step(bb, FromSquare(frm), FromSquare(to)), t) <==>
      if Has(bb, frm) then t == to || (t != frm && Has(bb, t))
      else if Has(bb, to) then t != to && Has(bb, t)
      else Has(bb, t)
  {
    MeetsSquare(bb, frm);
    MeetsSquare(bb, to);
    if Has(bb, frm) {
      StepFromHas(bb, frm, to, t);
    } else if Has(bb, to) {
      StepToHas(bb, frm, to, t);
    }
  }

  lemma StepFromHas(bb: Bitboard, frm: Square, to: Square, t: Square)
    requires Meets(bb, FromSquare(frm)) && Has(bb, frm)
    ensures Has(Step(bb, FromSquare(frm), FromSquare(to)), t) <==> t == to || (t != frm && Has(bb, t))
  {
    MoveBitHas(bb, frm, to, t);
  }

  lemma StepToHas(bb: Bitboard, frm: Square, to: Square, t: Square)
    requires !Meets(bb, FromSquare(frm)) && Meets(bb, FromSquare(to))
    ensures Has(Step(bb, FromSquare(frm), FromSquare(to)), t) <==> t != to && Has(bb, t)
  {
    ToggleHas(bb, to, t);
  }

  /** For a plain move between two squares the draft agrees with the step-by-step search of the position module. */
  lemma StepAgrees(bb: Bitboard, m: Move)
    requires m.rookTo.None? && m.frm != m.to
    ensures Step(bb, FromSquare(m.frm), FromSquare(m.to)) == Position.SearchBoard(bb, m)
  {
    StepAgreesNamed(bb, m, Step(bb, FromSquare(m.frm), FromSquare(m.to)), Position.SearchBoard(bb, m));
  }

  lemma StepAgreesNamed(bb: Bitboard, m: Move, x: Bitboard, y: Bitboard)
    requires m.rookTo.None? && m.frm != m.to
    requires x == Step(bb, FromSquare(m.frm), FromSquare(m.to)) && y == Position.SearchBoard(bb, m)
    ensures x == y
  {
    forall t: Square
      ensures Has(x, t) == Has(y, t)
    {
      StepAgreesAt(bb, m, x, y, t);
    }
    BitboardExt(x, y);
  }

  lemma StepAgreesAt(bb: Bitboard, m: Move, x: Bitboard, y: Bitboard, t: Square)
    requires m.rookTo.None? && m.frm != m.to
    requires x == Step(bb, FromSquare(m.frm), FromSquare(m.to)) && y == Position.SearchBoard(bb, m)
    ensures Has(x, t) == Has(y, t)
  {
    StepHas(bb, m.frm, m.to, t);
    Position.SearchPlainMove(bb, m, t);
    StepGlue(Has(x, t), Has(y, t), Has(bb, m.frm), Has(bb, m.to), Has(bb, t), t == m.to, t == m.frm);
  }

  /** The propositional step: the draft's three cases against capture-then-relocate. */
  lemma StepGlue(a: bool, b: bool, hf: bool, hto: bool, ht: bool, isTo: bool, isFrm: bool)
    requires a <==> if hf then isTo || (!isFrm && ht) else if hto then !isTo && ht else ht
    requires b <==> (hf && isTo) || (!isTo && !isFrm && ht)
    requires isTo ==> (ht <==> hto)
    requires isFrm ==> (ht <==> hf)
    ensures a == b
  {
  }

  /** So on a plain move the draft's `make_move` is the position module's. */
  lemma MakeMoveAgrees(b: ChessBitboards, m: Move)
    requires !IsCastling(m) && !IsPromotion(m) && m.frm != m.to
    ensures Position.MakeMove(b, m) == Success(MakeMove(b, m))
  {
    forall i | 0 <= i < 8
      ensures Step(Position.Boards(b)[i], FromSquare(m.frm), FromSquare(m.to)) == Position.SearchBoard(Position.Boards(b)[i], m)
    {
      StepAgrees(Position.Boards(b)[i], m);
    }
  }

  /** A castling move moves only the king: the rook stays on h1. */
  lemma CastlingLeavesRook()
    ensures var lone := Position.ChessBitboards(0, FromSquare(E1) | FromSquare(H1), 0, 0, 0,
      FromSquare(H1), 0, FromSquare(E1));
      var after := MakeMove(lone, CastlingMove(G1, E1, F1, H1));
      && after.kings == FromSquare(G1) && after.rooks == FromSquare(H1)
      && after.white == FromSquare(G1) | FromSquare(H1)
  {
  }
}
