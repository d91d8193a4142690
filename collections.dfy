/**
 * The earlier version of the position (bitboard_collections.py). It holds
 * the same eight bitboards as the position module but reads a square by
 * testing the colours first and then the type boards one by one, and its
 * starting position misplaces the white queen.
 */
module Collections {
  import opened Wrappers
  import opened Squares
  import opened Bitboards
  import opened Pieces
  import opened Moves
  import Position

  type ChessBitboards = Position.ChessBitboards

  /** The colour sign `piece_at` reads first: white 1, then black -1, else none. */
  function ColourSign(b: ChessBitboards, s: Square): Option<int>
  {
    if Has(b.white, s) then Some(1)
    else if Has(b.black, s) then Some(-1)
    else None
  }

  /** The first type k, counting from `from`, whose board holds the square. */
  function FirstType(b: ChessBitboards, s: Square, from: int): (r: Option<int>)
    requires 1 <= from <= 7
    ensures r.Some? ==> from <= r.value <= 6 && Has(Position.TypeBoard(b, r.value), s)
    ensures r.Some? ==> forall j :: from <= j < r.value ==> !Has(Position.TypeBoard(b, j), s)
    ensures r.None? <==> forall j :: from <= j <= 6 ==> !Has(Position.TypeBoard(b, j), s)
    decreases 7 - from
  {
    if from == 7 then None
    else if Has(Position.TypeBoard(b, from), s) then Some(from)
    else FirstType(b, s, from + 1)
  }

  /**
   * `piece_at`: the colour's sign times the first type board holding the
   * square; None when no colour holds it or when no type board does (the loop
   * then falls off its end).
   */
  function PieceAt(b: ChessBitboards, s: Square): Option<Piece>
  {
    match ColourSign(b, s)
    case None => None
    case Some(sign) =>
      match FirstType(b, s, 1)
      case None => None
      case Some(k) => Some((sign * k) as Piece)
  }

  /** `piece_at` as the source runs it: the colour test, then the loop over the type boards. */
  method PieceAtLoop(b: ChessBitboards, s: Square) returns (r: Option<Piece>)
    ensures r == PieceAt(b, s)
  {
    var piece: int;
    if Has(b.white, s) {
      piece := 1;
    } else if Has(b.black, s) {
      piece := -1;
    } else {
      return None;
    }
    var boards := Position.Boards(b)[2..];
    var i := 0;
    while i < |boards|
      invariant 0 <= i <= 6 && |boards| == 6
      invariant FirstType(b, s, 1) == FirstType(b, s, i + 1)
    {
      if Has(boards[i], s) {
        return Some(((i + 1) * piece) as Piece);
      }
      i := i + 1;
    }
    return None;
  }

  /** None exactly when no colour, or no type board, holds the square. */
  lemma PieceAtNone(b: ChessBitboards, s: Square)
    ensures PieceAt(b, s).None? <==>
      (!Has(b.white, s) && !Has(b.black, s))
      || (forall k :: 1 <= k <= 6 ==> !Has(Position.TypeBoard(b, k), s))
  {
  }

  /**
   * Otherwise the piece has the first type holding the square and is white
   * exactly when the white board holds it, whatever the black board says.
   */
  lemma PieceAtFound(b: ChessBitboards, s: Square, k: int)
    requires Has(b.white, s) || Has(b.black, s)
    requires 1 <= k <= 6 && Has(Position.TypeBoard(b, k), s)
    requires forall j :: 1 <= j < k ==> !Has(Position.TypeBoard(b, j), s)
    ensures PieceAt(b, s).Some?
    ensures Kind(PieceAt(b, s).value) == k
    ensures IsWhite(PieceAt(b, s).value) <==> Has(b.white, s)
  {
    assert FirstType(b, s, 1) == Some(k);
  }

  /** On a consistent square the two versions of `piece_at` agree. */
  lemma PieceAtAgrees(b: ChessBitboards, s: Square)
    requires Position.SquareConsistent(b, s)
    ensures Position.PieceAt(b, s) == Success(PieceAt(b, s))
  {
    if Has(b.white, s) || Has(b.black, s) {
      SomeType(b, s);
      var k := FirstType(b, s, 1).value;
      Position.PieceAtConsistent(b, s, k);
      OnlyType(b, s, k);
      PieceAtFound(b, s, k);
    } else {
      Position.PieceAtEmpty(b, s);
    }
  }

  /** A square some type board holds has a first such type. */
  lemma SomeType(b: ChessBitboards, s: Square)
    requires Position.TypeCount(b, s) >= 1
    ensures FirstType(b, s, 1).Some?
  {
  }

  /** Exactly one type board holds the square on a consistent, occupied square. */
  lemma OnlyType(b: ChessBitboards, s: Square, k: int)
    requires Position.SquareConsistent(b, s) && 1 <= k <= 6 && Has(Position.TypeBoard(b, k), s)
    ensures forall j :: 1 <= j <= 6 && j != k ==> !Has(Position.TypeBoard(b, j), s)
  {
  }

  /** `make_move` with masks built from the squares, as in the position module. */
  function MakeMove(b: ChessBitboards, m: Move): (r: Result<ChessBitboards>)
    ensures r.Success? <==> Position.MakeMove(b, m).Success?
    ensures r.Success? ==> r == Position.MakeMove(b, m)
    ensures r.Failure? ==> r.error == TypeError
  {
    match Position.MakeMove(b, m)
    case Success(after) => Success(after)
    case Failure(_) => Failure(TypeError)
  }

  /**
   * `make_move` as written. The promotion branch XORs the pawns with the
   * square `move.frm` itself, and `search` ANDs each bitboard with the square
   * `move.rook_frm` whenever a rook target is given. A square is a plain
   * enumeration member, not an integer, so both raise TypeError: every
   * castling move and every promotion fails.
   */
  function MakeMoveAsWritten(b: ChessBitboards, m: Move): (r: Result<ChessBitboards>)
    ensures r.Failure? <==> IsCastling(m) || IsPromotion(m)
    ensures r.Failure? ==> r.error == TypeError
    ensures r.Success? ==> r == Position.MakeMove(b, m)
  {
    if IsPromotion(m) || IsCastling(m) then Failure(TypeError)
    else MakeMove(b, m)
  }

  /**
   * Where the mask-based `make_move` castles or promotes, the version as
   * written raises; on every other move the two agree.
   */
  lemma MakeMoveAsWrittenRaises(b: ChessBitboards, m: Move)
    ensures (IsCastling(m) && Position.Applicable(m)) || IsPromotion(m) ==>
      MakeMove(b, m).Success? && MakeMoveAsWritten(b, m) == Failure(TypeError)
    ensures !IsCastling(m) && !IsPromotion(m) ==>
      MakeMoveAsWritten(b, m) == MakeMove(b, m) && MakeMove(b, m).Success?
  {
  }

  /**
   * The lone king's castle e1-g1 with the rook h1-f1: the mask-based
   * `make_move` puts the king on g1 and the rook on f1; as written it raises.
   */
  lemma LoneCastle()
    ensures var lone := Position.ChessBitboards(0, FromSquare(E1) | FromSquare(H1), 0, 0, 0,
      FromSquare(H1), 0, FromSquare(E1));
      var m := CastlingMove(G1, E1, F1, H1);
      && MakeMove(lone, m).Success?
      && MakeMove(lone, m).value.kings == FromSquare(G1)
      && MakeMove(lone, m).value.rooks == FromSquare(F1)
      && MakeMoveAsWritten(lone, m) == Failure(TypeError)
  {
    Position.LoneCastle();
  }

  /** `new_game` as written: the white queen stands on d4 instead of d1. */
  function NewGameAsWritten(): ChessBitboards
  {
    Position.NewGame().(queens := FromSquare(D4) | FromSquare(D8))
  }

  /**
   * With the queen on d4 the white board still holds d1 and not d4, so
   * `piece_at` finds no piece on either square and the position differs from
   * the standard one.
   */
  lemma NewGameAsWrittenMisplacesQueen()
    ensures NewGameAsWritten() != Position.NewGame()
    ensures PieceAt(NewGameAsWritten(), D1) == None
    ensures PieceAt(NewGameAsWritten(), D4) == None
    ensures PieceAt(Position.NewGame(), D1) == Some(Queen)
  {
  }

  /** With the queen on d1, the standard layout: back ranks R N B Q K B N R, pawns on ranks 2 and 7. */
  lemma NewGameLayout(s: Square)
    ensures PieceAt(Position.NewGame(), s) == Position.StartingPiece(s)
  {
    Position.NewGameLayout(s);
    PieceAtAgrees(Position.NewGame(), s);
  }

  /** An empty position has no piece anywhere. */
  lemma EmptyBoard(s: Square)
    ensures PieceAt(Position.ChessBitboards(0, 0, 0, 0, 0, 0, 0, 0), s) == None
  {
  }

  /** a2-a3 from the start: the pawn leaves a2 for a3, as the hand-built position shows. */
  lemma PawnAdvance()
    ensures var r := MakeMove(Position.NewGame(), SimpleMove(A3, A2));
      && r.Success?
      && r.value == Position.NewGame().(
        white := RankMask(1) | (RankMask(2) & !FromSquare(A2)) | FromSquare(A3),
        pawns := (RankMask(2) & !FromSquare(A2)) | FromSquare(A3) | RankMask(7))
      && PieceAt(r.value, A2) == None
      && PieceAt(r.value, A3) == Some(Pawn)
  {
  }
}
