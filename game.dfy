/**
 * The state of a fog-of-war chess game (`FOWChess`,
 * fog_of_war/fog_of_war_chess.py): the position, the side to move, the
 * castling and en-passant bitboards and the half-move counter. A state is
 * never changed; a move builds the next one.
 *
 * The module also holds the attack test, the pseudo-legal move generator and
 * the squares a side can see.
 */
module Game {
  import opened Wrappers
  import opened Squares
  import opened Bitboards
  import opened BitScan
  import opened Pieces
  import opened Moves
  import opened Attacks
  import Position
  import Special

  type ChessBitboards = Position.ChessBitboards
  type SpecialMoveBitboards = Special.SpecialMoveBitboards

  const White: bool := true
  const Black: bool := false

  datatype FOWChess = FOWChess(
    bitboards: ChessBitboards,
    turn: bool,
    special: SpecialMoveBitboards,
    halfMove: int)

  /** `new_game`: the standard position, white to move, all rights, no half moves yet. */
  function NewGame(): FOWChess
  {
    FOWChess(Position.NewGame(), White, Special.NewGame(), 0)
  }

  /**
   * `from_fow` (and `make_move`, which calls it): the position after the
   * move, the other side to move, the special bitboards updated from the
   * parent's position and one more half move. Applying the move to the
   * position raises when the move names a rook target without a rook origin.
   */
  function FromFow(parent: FOWChess, m: Move): (r: Result<FOWChess>)
    ensures r.Success? <==> Position.MakeMove(parent.bitboards, m).Success?
    ensures r.Failure? ==> r.error == KeyError
    ensures r.Success? ==> (
      && r.value.bitboards == Position.MakeMove(parent.bitboards, m).value
      && r.value.turn == !parent.turn
      && r.value.special == Special.Update(parent.special, parent.bitboards, m)
      && r.value.halfMove == parent.halfMove + 1)
  {
    match Position.MakeMove(parent.bitboards, m)
    case Failure(e) => Failure(e)
    case Success(after) =>
      Success(FOWChess(after, !parent.turn, Special.Update(parent.special, parent.bitboards, m), parent.halfMove + 1))
  }

  /** `full_move_number`: Python's floor division of the half moves by two, plus one. */
  function FullMoveNumber(g: FOWChess): (r: int)
    ensures 2 * (r - 1) <= g.halfMove < 2 * r
    ensures g.halfMove >= 0 ==> r >= 1
  {
    g.halfMove / 2 + 1
  }

  /** Two plies bring the same side back to move, one full move later. */
  lemma TwoPlies(g: FOWChess, m1: Move, m2: Move)
    requires FromFow(g, m1).Success? && FromFow(FromFow(g, m1).value, m2).Success?
    ensures var after := FromFow(FromFow(g, m1).value, m2).value;
      && after.turn == g.turn
      && after.halfMove == g.halfMove + 2
      && FullMoveNumber(after) == FullMoveNumber(g) + 1
  {
  }

  /** A move by white keeps the full-move number from an even count; black's move then starts a new one. */
  lemma FullMoveAfterPly(g: FOWChess, m: Move)
    requires FromFow(g, m).Success?
    ensures FullMoveNumber(FromFow(g, m).value)
      == FullMoveNumber(g) + (if g.halfMove % 2 == 1 then 1 else 0)
  {
  }

  // ---------------------------------------------------------------------
  // The end of the game.

  /** `is_over`: the scan of the kings bitboard yields exactly one square. */
  predicate IsOver(g: FOWChess)
  {
    |SquaresOf(g.bitboards.kings)| == 1
  }

  /** The game is over exactly when one king is left on the board. */
  lemma IsOverOneKing(g: FOWChess)
    ensures IsOver(g) <==> exists s: Square :: g.bitboards.kings == FromSquare(s)
  {
    if IsOver(g) {
      ScanOfOne(g.bitboards.kings);
    }
    if exists s: Square :: g.bitboards.kings == FromSquare(s) {
      var s: Square :| g.bitboards.kings == FromSquare(s);
      ScanOfSquare(s);
    }
  }

  /**
   * `winner`: None when both colours still have a king or neither has, the
   * other colour when one has none. Python compares the two king bitboards:
   * two equal bitboards give None, and two different non-empty ones fall
   * through every test, which returns None as well.
   */
  function Winner(g: FOWChess): (r: Option<bool>)
    ensures var w := g.bitboards.white & g.bitboards.kings; var b := g.bitboards.black & g.bitboards.kings;
      && (r == Some(Black) <==> w == 0 && b != 0)
      && (r == Some(White) <==> b == 0 && w != 0)
      && (r == None <==> (w == 0 <==> b == 0))
  {
    var white := g.bitboards.white & g.bitboards.kings;
    var black := g.bitboards.black & g.bitboards.kings;
    if white == black then None
    else if white == 0 then Some(Black)
    else if black == 0 then Some(White)
    else None
  }

  /** `_occupied_by_color`: the colour's bitboard. */
  function OccupiedByColor(g: FOWChess, colour: bool): Bitboard
  {
    if colour then g.bitboards.white else g.bitboards.black
  }

  // ---------------------------------------------------------------------
  // _anyone_attacking

  /**
   * Whether one of the opponent's pieces attacks the square: a piece of the
   * mover's colour standing on it would attack an opposing piece of the same
   * type (a queen also moves one step like a king).
   */
  predicate AttackedAt(g: FOWChess, s: Square)
  {
    var b := g.bitboards;
    var occupied := b.black | b.white;
    var their := OccupiedByColor(g, !g.turn);
    Meets(b.pawns & their, PawnAttacks(s, g.turn))
    || Meets(RankMoves(s, occupied) | FileMoves(s, occupied), (b.queens | b.rooks) & their)
    || Meets(DiagonalMoves(s, occupied), (b.queens | b.bishops) & their)
    || Meets(KingMoves(s), (b.kings | b.queens) & their)
    || Meets(KnightMoves(s), b.knights & their)
  }

  /**
   * `_anyone_attacking`: the mask is read as the square `Square(bit_length)`,
   * its highest square; the empty mask has bit length 0, which is no square
   * and raises a ValueError.
   */
  function AnyoneAttacking(g: FOWChess, mask: Bitboard): (r: Result<bool>)
    ensures r.Failure? <==> mask == 0
    ensures r.Failure? ==> r.error == ValueError
  {
    BitLengthZero(mask);
    match SquareOfValue(BitLength(mask) as int)
    case Failure(e) => Failure(e)
    case Success(s) => Success(AttackedAt(g, s))
  }

  /** On a single square's mask the test asks about that square. */
  lemma AttackingSquare(g: FOWChess, s: Square)
    ensures AnyoneAttacking(g, FromSquare(s)) == Success(AttackedAt(g, s))
  {
    BitLengthOfSquare(s);
  }

  /** An opposing knight attacks every square a knight move away from it. */
  lemma KnightAttacker(g: FOWChess, s: Square, t: Square)
    requires Has(g.bitboards.knights & OccupiedByColor(g, !g.turn), t)
    requires Has(KnightMoves(t), s)
    ensures AttackedAt(g, s)
  {
    KnightSpec(t, s);
    KnightSpec(s, t);
    MeetsSquare(g.bitboards.knights & OccupiedByColor(g, !g.turn), t);
    HasAndMeets(KnightMoves(s), g.bitboards.knights & OccupiedByColor(g, !g.turn), t);
  }

  /** An opposing king or queen attacks every neighbouring square. */
  lemma KingAttacker(g: FOWChess, s: Square, t: Square)
    requires Has((g.bitboards.kings | g.bitboards.queens) & OccupiedByColor(g, !g.turn), t)
    requires Has(KingMoves(t), s)
    ensures AttackedAt(g, s)
  {
    KingSpec(t, s);
    KingSpec(s, t);
    HasAndMeets(KingMoves(s), (g.bitboards.kings | g.bitboards.queens) & OccupiedByColor(g, !g.turn), t);
  }

  /** An opposing pawn attacks the two squares diagonally ahead of it, ahead for its own colour. */
  lemma PawnAttacker(g: FOWChess, s: Square, t: Square)
    requires Has(g.bitboards.pawns & OccupiedByColor(g, !g.turn), t)
    requires Has(PawnAttacks(t, !g.turn), s)
    ensures AttackedAt(g, s)
  {
    PawnAttacksSpec(t, !g.turn, s);
    PawnAttacksSpec(s, g.turn, t);
    HasAndMeets(g.bitboards.pawns & OccupiedByColor(g, !g.turn), PawnAttacks(s, g.turn), t);
  }

  /** Two bitboards that both hold a square meet. */
  lemma HasAndMeets(a: Bitboard, b: Bitboard, t: Square)
    requires Has(a, t) && Has(b, t)
    ensures Meets(a, b)
  {
    AndHas(a, b, t);
  }

  /** With no opposing piece on the board, no square is attacked. */
  lemma NoOpponentNoAttack(g: FOWChess, s: Square)
    requires OccupiedByColor(g, !g.turn) == 0
    ensures !AttackedAt(g, s)
  {
  }

  // ---------------------------------------------------------------------
  // _possible_move_generator, as values.

  /** The mover's pieces. */
  function Our(g: FOWChess): Bitboard
  {
    OccupiedByColor(g, g.turn)
  }

  /** The opponent's pieces. */
  function Their(g: FOWChess): Bitboard
  {
    OccupiedByColor(g, !g.turn)
  }

  /** Both sides' pieces. */
  function Everyone(g: FOWChess): Bitboard
  {
    Our(g) | Their(g)
  }

  /**
   * `list` over consecutive parts of the generator: the moves of both parts
   * in order, or the first error raised.
   */
  function Then(a: Result<seq<Move>>, b: Result<seq<Move>>): (r: Result<seq<Move>>)
    ensures r.Success? <==> a.Success? && b.Success?
    ensures r.Success? ==> r.value == a.value + b.value
  {
    if a.Failure? then Failure(a.error)
    else if b.Failure? then Failure(b.error)
    else Success(a.value + b.value)
  }

  /** The plain moves from one square to each of a list of targets. */
  function MovesFrom(frm: Square, tos: seq<Square>): (r: seq<Move>)
    ensures |r| == |tos| && forall k :: 0 <= k < |tos| ==> r[k] == SimpleMove(tos[k], frm)
  {
    seq(|tos|, k requires 0 <= k < |tos| => SimpleMove(tos[k], frm))
  }

  /** The plain moves to one square from each of a list of origins. */
  function MovesTo(to: Square, frms: seq<Square>): (r: seq<Move>)
    ensures |r| == |frms| && forall k :: 0 <= k < |frms| ==> r[k] == SimpleMove(to, frms[k])
  {
    seq(|frms|, k requires 0 <= k < |frms| => SimpleMove(to, frms[k]))
  }

  /** The moves of a nested loop: for each square in turn, the moves it yields. */
  function FlatMap(frms: seq<Square>, f: Square -> seq<Move>): seq<Move>
    decreases |frms|
  {
    if frms == [] then [] else f(frms[0]) + FlatMap(frms[1..], f)
  }

  // Non-pawn moves.

  /**
   * The targets of the piece on an origin: its attack mask on the occupied
   * board, less the mover's own pieces. A square `piece_at` finds empty gets
   * no targets; `piece_at` raises on a square held inconsistently.
   */
  function NonPawnTargets(g: FOWChess, frm: Square): Result<Bitboard>
  {
    match Position.PieceAt(g.bitboards, frm)
    case Failure(e) => Failure(e)
    case Success(None) => Success(0)
    case Success(Some(p)) => Success(!Our(g) & NonPawnMoveMask(frm, p, Everyone(g)))
  }

  /** The non-pawn moves from each origin of a list in turn. */
  function NonPawnFrom(g: FOWChess, frms: seq<Square>): Result<seq<Move>>
    decreases |frms|
  {
    if frms == [] then Success([])
    else
      match NonPawnTargets(g, frms[0])
      case Failure(e) => Failure(e)
      case Success(t) => Then(Success(MovesFrom(frms[0], SquaresOf(t))), NonPawnFrom(g, frms[1..]))
  }

  /** The first loop: every non-pawn piece of the mover to every square of its target mask. */
  function NonPawnMoves(g: FOWChess): Result<seq<Move>>
  {
    NonPawnFrom(g, SquaresOf(Our(g) & !g.bitboards.pawns))
  }

  // Castling.

  /** The mover's back rank. */
  function BackRank(white: bool): Bitboard
  {
    if white then RankMask(1) else RankMask(8)
  }

  /** The number of the mover's back rank. */
  function HomeRank(white: bool): bv8
  {
    if white then 1 else 8
  }

  /** `a_mask` to `h_mask`: the square of a file on the mover's back rank. */
  function CornerMask(g: FOWChess, file: bv8): Bitboard
    requires 1 <= file <= 8
  {
    BackRank(g.turn) & FileMask(file)
  }

  /** The square of a file on the mover's back rank. */
  function HomeSquare(g: FOWChess, file: bv8): Square
    requires 1 <= file <= 8
  {
    SquareAt(file, HomeRank(g.turn))
  }

  /** `any` over `_anyone_attacking` of some masks: it stops at the first attacked one, or at an error. */
  function AnyAttacked(g: FOWChess, masks: seq<Bitboard>): Result<bool>
    decreases |masks|
  {
    if masks == [] then Success(false)
    else
      match AnyoneAttacking(g, masks[0])
      case Failure(e) => Failure(e)
      case Success(true) => Success(true)
      case Success(false) => AnyAttacked(g, masks[1..])
  }

  /**
   * One castling move, when its tests pass: the king right and the rook
   * right are held by the mover's pieces, the emptiness test on the squares
   * between passes, and none of the king's mask and the two given squares is
   * attacked. The king leaves from `Square(bit_length)` of the mover's kings.
   */
  function CastleIf(g: FOWChess, rookRight: Bitboard, between: Bitboard, passed: seq<Bitboard>,
                    to: Square, rookTo: Square, rookFrm: Square): Result<seq<Move>>
  {
    var our := Our(g);
    if Meets(g.special.castlingKings, our) && Meets(rookRight, our) && Meets(!Everyone(g), between) then
      SafeCastle(g, g.bitboards.kings & our, passed, to, rookTo, rookFrm)
    else Success([])
  }

  /** The attack test on the king's mask and the squares passed, then the move from the king's square. */
  function SafeCastle(g: FOWChess, king: Bitboard, passed: seq<Bitboard>,
                      to: Square, rookTo: Square, rookFrm: Square): Result<seq<Move>>
  {
    match AnyAttacked(g, [king] + passed)
    case Failure(e) => Failure(e)
    case Success(true) => Success([])
    case Success(false) =>
      match SquareOfValue(BitLength(king) as int)
      case Failure(e) => Failure(e)
      case Success(k) => Success([CastlingMove(to, k, rookTo, rookFrm)])
  }

  /** Kingside: f and g tested for emptiness and attack; the king goes to g, the rook h to f. */
  function KingsideCastle(g: FOWChess): Result<seq<Move>>
  {
    CastleIf(g, Special.KingsideCastling(g.special), CornerMask(g, 6) | CornerMask(g, 7),
      [CornerMask(g, 6), CornerMask(g, 7)], HomeSquare(g, 7), HomeSquare(g, 6), HomeSquare(g, 8))
  }

  /** Queenside: b, c and d tested for emptiness, c and d for attack; the king goes to c, the rook a to d. */
  function QueensideCastle(g: FOWChess): Result<seq<Move>>
  {
    CastleIf(g, Special.QueensideCastling(g.special), CornerMask(g, 2) | CornerMask(g, 3) | CornerMask(g, 4),
      [CornerMask(g, 3), CornerMask(g, 4)], HomeSquare(g, 3), HomeSquare(g, 4), HomeSquare(g, 1))
  }

  /** The castling section, entered when the mover holds a king right and a rook right. */
  function CastlingMoves(g: FOWChess): Result<seq<Move>>
  {
    if Meets(g.special.castlingKings, Our(g)) && Meets(g.special.castlingRooks, Our(g)) then
      Then(KingsideCastle(g), QueensideCastle(g))
    else Success([])
  }

  // Pawn moves.

  /** The mover's pawns. */
  function OurPawns(g: FOWChess): Bitboard
  {
    g.bitboards.pawns & Our(g)
  }

  /** Pawn captures from one square: its attacks on the opponent's pieces. */
  function PawnCapturesFrom(g: FOWChess, frm: Square): seq<Move>
  {
    MovesFrom(frm, SquaresOf(PawnAttacks(frm, g.turn) & Their(g)))
  }

  /** The squares a single push reaches: one rank forward onto an empty square. */
  function SinglePushes(g: FOWChess): Bitboard
  {
    if g.turn then (OurPawns(g) << 8) & !Everyone(g) else (OurPawns(g) >> 8) & !Everyone(g)
  }

  /** The squares a double push reaches: one more rank forward, onto rank 4 (white) or 5 (black), empty. */
  function DoublePushes(g: FOWChess): Bitboard
  {
    if g.turn then (SinglePushes(g) << 8) & RankMask(4) & !Everyone(g)
    else (SinglePushes(g) >> 8) & RankMask(5) & !Everyone(g)
  }

  /**
   * Python's shift does not drop bits: a white pawn on rank 8 pushes a bit
   * past h8, which the scan yields first as a square numbered above 64.
   */
  predicate PushesOffBoard(g: FOWChess)
  {
    g.turn && Meets(OurPawns(g), RankMask(8))
  }

  /** The pushes to a list of targets, each from `Square(to + delta)`. */
  function PushMoves(tos: seq<Square>, delta: int): Result<seq<Move>>
    decreases |tos|
  {
    if tos == [] then Success([])
    else
      match SquareOfValue(tos[0] as int + delta)
      case Failure(e) => Failure(e)
      case Success(frm) => Then(Success([SimpleMove(tos[0], frm)]), PushMoves(tos[1..], delta))
  }

  /** How far a pawn moves forward, as a change of square number: 8 per rank, up the board for white. */
  function Forward(white: bool): int
  {
    if white then 8 else -8
  }

  /** Single pushes come from one rank back. */
  function SinglePushMoves(g: FOWChess): Result<seq<Move>>
  {
    if PushesOffBoard(g) then Failure(ValueError)
    else PushMoves(SquaresOf(SinglePushes(g)), -Forward(g.turn))
  }

  /** Double pushes come from two ranks back. */
  function DoublePushMoves(g: FOWChess): Result<seq<Move>>
  {
    PushMoves(SquaresOf(DoublePushes(g)), -2 * Forward(g.turn))
  }

  /** The promotion piece of the mover's colour: positive for white, negative for black. */
  function PromotionPiece(white: bool, promote: int): (p: Piece)
    requires 2 <= promote <= 4
    ensures Kind(p) == promote && (IsWhite(p) <==> white)
  {
    if white then promote as Piece else (-promote) as Piece
  }

  /**
   * The promotion piece as written, `Piece(promote * (-1 * (not turn)))`:
   * `not turn` counts as 0 for white and 1 for black, so black gets the
   * negative piece and white gets `Piece(0)`, which is no piece.
   */
  function PromotionPieceAsWritten(white: bool, promote: int): Result<Piece>
    requires 2 <= promote <= 4
  {
    PieceOf(promote * (-1 * (if white then 0 else 1)))
  }

  /** As written, every white promotion raises a ValueError; black's agree with the corrected piece. */
  lemma PromotionPieceAsWrittenRaises(white: bool, promote: int)
    requires 2 <= promote <= 4
    ensures white ==> PromotionPieceAsWritten(white, promote) == Failure(ValueError)
    ensures !white ==> PromotionPieceAsWritten(white, promote) == Success(PromotionPiece(white, promote))
  {
  }

  /** The three promotions the generator offers a pawn: knight, bishop, rook. */
  function PromotionsOf(g: FOWChess, pawn: Square): seq<Move>
  {
    [PromotionMove(pawn, PromotionPiece(g.turn, 2)), PromotionMove(pawn, PromotionPiece(g.turn, 3)),
     PromotionMove(pawn, PromotionPiece(g.turn, 4))]
  }

  /**
   * The promotion section: entered when one of the mover's pawns stands on
   * the mover's own back rank, then offered for every pawn of the mover.
   */
  function PromotionMoves(g: FOWChess): seq<Move>
  {
    if Meets(BackRank(g.turn), OurPawns(g)) then FlatMap(SquaresOf(OurPawns(g)), (pawn: Square) => PromotionsOf(g, pawn))
    else []
  }

  /** An en-passant square is on offer: set, and no piece stands on it. */
  predicate EnPassantOpen(g: FOWChess)
  {
    g.special.epBitboard != 0 && !Meets(g.special.epBitboard, Everyone(g))
  }

  /** `Square(bit_length)` of a non-empty bitboard: its highest square. */
  function HighestSquare(b: Bitboard): (s: Square)
    requires b != 0
    ensures Has(b, s) && forall t: Square :: t > s ==> !Has(b, t)
  {
    BitLengthSpec(b);
    HighestSquareHas(b);
    BitLength(b)
  }

  lemma HighestSquareHas(b: Bitboard)
    requires b != 0
    ensures 1 <= BitLength(b) <= 64
    ensures Has(b, BitLength(b)) && forall t: Square :: t > BitLength(b) ==> !Has(b, t)
  {
    BitLengthZero(b);
    BitLengthTop(b);
    HasIsBit(b, BitLength(b));
    forall t: Square | t > BitLength(b)
      ensures !Has(b, t)
    {
      HighestAbove(b, t);
    }
  }

  lemma HighestAbove(b: Bitboard, t: Square)
    requires t > BitLength(b)
    ensures !Has(b, t)
  {
    BitLengthAbove(b, t - 1);
    HasIsBit(b, t);
  }

  /** The en-passant square, `Square(bit_length)` of its bitboard. */
  function EnPassantSquare(g: FOWChess): Square
    requires g.special.epBitboard != 0
  {
    HighestSquare(g.special.epBitboard)
  }

  /** The en-passant captures: from each of the mover's pawns an opposing pawn on the square would attack. */
  function EnPassantMoves(g: FOWChess): seq<Move>
  {
    if EnPassantOpen(g) then
      MovesTo(EnPassantSquare(g), SquaresOf(PawnAttacks(EnPassantSquare(g), !g.turn) & OurPawns(g)))
    else []
  }

  /** The pawn section: captures, single and double pushes, promotions and en passant, when the mover has pawns. */
  function PawnMoves(g: FOWChess): Result<seq<Move>>
  {
    if OurPawns(g) == 0 then Success([])
    else
      Then(Success(FlatMap(SquaresOf(OurPawns(g)), (frm: Square) => PawnCapturesFrom(g, frm))),
        Then(SinglePushMoves(g),
          Then(DoublePushMoves(g), Success(PromotionMoves(g) + EnPassantMoves(g)))))
  }

  /** `possible_moves_list`: every move the generator yields, in order, or the error it raises. */
  function PossibleMoves(g: FOWChess): Result<seq<Move>>
  {
    Then(NonPawnMoves(g), Then(CastlingMoves(g), PawnMoves(g)))
  }

  // ---------------------------------------------------------------------
  // The moves of each section, stated on the board.

  /** A non-pawn piece of the mover to a square its mask reaches that the mover does not hold. */
  predicate NonPawnMoveOf(g: FOWChess, mv: Move)
  {
    && Has(Our(g) & !g.bitboards.pawns, mv.frm)
    && !Has(Our(g), mv.to)
    && PieceReaches(g, mv.frm, mv.to)
    && mv == SimpleMove(mv.to, mv.frm)
  }

  /** A pawn of the mover onto an opposing piece it attacks. */
  predicate PawnCaptureOf(g: FOWChess, mv: Move)
  {
    && Has(OurPawns(g), mv.frm)
    && Has(PawnAttacks(mv.frm, g.turn), mv.to)
    && Has(Their(g), mv.to)
    && mv == SimpleMove(mv.to, mv.frm)
  }

  /** A pawn of the mover one rank forward onto an empty square. */
  predicate SinglePushOf(g: FOWChess, mv: Move)
  {
    && Has(OurPawns(g), mv.frm)
    && !Has(Everyone(g), mv.to)
    && (if g.turn then mv.to == mv.frm + 8 else mv.frm == mv.to + 8)
    && mv == SimpleMove(mv.to, mv.frm)
  }

  /**
   * A pawn of the mover two ranks forward, over an empty square onto an
   * empty square of rank 4 (white) or 5 (black).
   */
  predicate DoublePushOf(g: FOWChess, mv: Move)
  {
    && Rank(mv.to) == (if g.turn then 4 else 5)
    && Has(OurPawns(g), mv.frm)
    && !Has(Everyone(g), mv.to)
    && (if g.turn then mv.to == mv.frm + 16 && !Has(Everyone(g), mv.frm + 8)
        else mv.frm == mv.to + 16 && !Has(Everyone(g), mv.to + 8))
    && mv == SimpleMove(mv.to, mv.frm)
  }

  /** Any pawn of the mover promoting in place, once one of them stands on the mover's back rank. */
  predicate PromotionOf(g: FOWChess, mv: Move)
  {
    Meets(BackRank(g.turn), OurPawns(g)) && Has(OurPawns(g), mv.frm) && PromotesInPlace(g.turn, mv)
  }

  /** A pawn of the mover onto the open en-passant square, which it attacks. */
  predicate EnPassantOf(g: FOWChess, mv: Move)
  {
    && EnPassantOpen(g)
    && mv.to == EnPassantSquare(g)
    && Has(OurPawns(g), mv.frm)
    && Has(PawnAttacks(mv.frm, g.turn), mv.to)
    && mv == SimpleMove(mv.to, mv.frm)
  }

  // ---------------------------------------------------------------------
  // What the generator yields.

  /** A nested loop yields the moves of each of its squares. */
  lemma {:induction false} FlatMapMembers(frms: seq<Square>, f: Square -> seq<Move>, mv: Move)
    ensures mv in FlatMap(frms, f) <==> exists k :: 0 <= k < |frms| && mv in f(frms[k])
    decreases |frms|
  {
    if frms != [] {
      FlatMapMembers(frms[1..], f, mv);
      if mv in FlatMap(frms[1..], f) {
        var k :| 0 <= k < |frms[1..]| && mv in f(frms[1..][k]);
        assert mv in f(frms[k + 1]);
      }
      if exists k :: 0 <= k < |frms| && mv in f(frms[k]) {
        var k :| 0 <= k < |frms| && mv in f(frms[k]);
        if k > 0 {
          assert frms[1..][k - 1] == frms[k];
        }
      }
    }
  }

  /** A nested loop over a scan yields the moves of each square of the scanned bitboard. */
  lemma FlatMapScan(b: Bitboard, f: Square -> seq<Move>, mv: Move)
    ensures mv in FlatMap(SquaresOf(b), f) <==> exists s: Square :: Has(b, s) && mv in f(s)
  {
    var sq := SquaresOf(b);
    FlatMapMembers(sq, f, mv);
    if mv in FlatMap(sq, f) {
      var k :| 0 <= k < |sq| && mv in f(sq[k]);
      SquaresOfMembers(b, sq[k]);
    }
    if exists s: Square :: Has(b, s) && mv in f(s) {
      var s: Square :| Has(b, s) && mv in f(s);
      SquaresOfMembers(b, s);
      var k :| 0 <= k < |sq| && sq[k] == s;
    }
  }

  /** The moves from a square go to exactly the listed targets. */
  lemma MovesFromMembers(frm: Square, tos: seq<Square>, mv: Move)
    ensures mv in MovesFrom(frm, tos) <==> mv == SimpleMove(mv.to, frm) && mv.to in tos
  {
    if mv == SimpleMove(mv.to, frm) && mv.to in tos {
      var k :| 0 <= k < |tos| && tos[k] == mv.to;
      assert MovesFrom(frm, tos)[k] == mv;
    }
  }

  /** The moves to a square come from exactly the listed origins. */
  lemma MovesToMembers(to: Square, frms: seq<Square>, mv: Move)
    ensures mv in MovesTo(to, frms) <==> mv == SimpleMove(to, mv.frm) && mv.frm in frms
  {
    if mv == SimpleMove(to, mv.frm) && mv.frm in frms {
      var k :| 0 <= k < |frms| && frms[k] == mv.frm;
      assert MovesTo(to, frms)[k] == mv;
    }
  }

  /** The non-pawn loop over some origins fails exactly when one of them fails. */
  lemma {:induction false} NonPawnFromSucceeds(g: FOWChess, frms: seq<Square>)
    ensures NonPawnFrom(g, frms).Success? <==> forall k :: 0 <= k < |frms| ==> NonPawnTargets(g, frms[k]).Success?
    decreases |frms|
  {
    if frms != [] {
      NonPawnFromSucceeds(g, frms[1..]);
      if NonPawnTargets(g, frms[0]).Success? && NonPawnFrom(g, frms[1..]).Success? {
        forall k | 0 <= k < |frms| ensures NonPawnTargets(g, frms[k]).Success? {
          if k > 0 {
            assert frms[1..][k - 1] == frms[k];
          }
        }
      }
    }
  }

  /** When the loop succeeds, so does every one of its origins. */
  lemma NonPawnFromSucceedsAt(g: FOWChess, frms: seq<Square>, s: Square)
    requires NonPawnFrom(g, frms).Success? && s in frms
    ensures NonPawnTargets(g, s).Success?
  {
    NonPawnFromSucceeds(g, frms);
    var k :| 0 <= k < |frms| && frms[k] == s;
  }

  /** Otherwise it yields a plain move from each origin to each square of its targets. */
  lemma {:induction false} NonPawnFromYields(g: FOWChess, frms: seq<Square>, mv: Move)
    requires NonPawnFrom(g, frms).Success?
    ensures mv in NonPawnFrom(g, frms).value <==>
      mv.frm in frms && NonPawnTargets(g, mv.frm).Success? && Has(NonPawnTargets(g, mv.frm).value, mv.to)
      && mv == SimpleMove(mv.to, mv.frm)
    decreases |frms|
  {
    if frms != [] {
      var t := NonPawnTargets(g, frms[0]);
      var rest := NonPawnFrom(g, frms[1..]);
      assert t.Success? && rest.Success?;
      assert NonPawnFrom(g, frms).value == MovesFrom(frms[0], SquaresOf(t.value)) + rest.value;
      MovesFromMembers(frms[0], SquaresOf(t.value), mv);
      SquaresOfMembers(t.value, mv.to);
      NonPawnFromYields(g, frms[1..], mv);
      if mv.frm in frms && mv.frm != frms[0] {
        var k :| 0 <= k < |frms| && frms[k] == mv.frm;
        assert frms[1..][k - 1] == mv.frm;
      }
    }
  }


  /** The piece `piece_at` finds on a square reaches another in its attack mask on the occupied board. */
  predicate PieceReaches(g: FOWChess, frm: Square, to: Square)
  {
    match Position.PieceAt(g.bitboards, frm)
    case Success(Some(p)) => Has(NonPawnMoveMask(frm, p, Everyone(g)), to)
    case _ => false
  }

  /** The targets of a piece of the mover: the squares its mask reaches that the mover does not hold. */
  lemma NonPawnTargetsHas(g: FOWChess, frm: Square, to: Square)
    requires Has(Our(g), frm) && NonPawnTargets(g, frm).Success?
    ensures Has(NonPawnTargets(g, frm).value, to) <==> !Has(Our(g), to) && PieceReaches(g, frm, to)
  {
    OurOccupied(g, frm);
    var p :| Position.PieceAt(g.bitboards, frm) == Success(Some(p));
    PieceTargetsHas(g, frm, p, to);
  }

  lemma PieceTargetsHas(g: FOWChess, frm: Square, p: Piece, to: Square)
    requires Position.PieceAt(g.bitboards, frm) == Success(Some(p))
    ensures NonPawnTargets(g, frm) == Success(!Our(g) & NonPawnMoveMask(frm, p, Everyone(g)))
    ensures PieceReaches(g, frm, to) == Has(NonPawnMoveMask(frm, p, Everyone(g)), to)
    ensures Has(!Our(g) & NonPawnMoveMask(frm, p, Everyone(g)), to) <==>
      !Has(Our(g), to) && Has(NonPawnMoveMask(frm, p, Everyone(g)), to)
  {
    NotAndHas(Our(g), NonPawnMoveMask(frm, p, Everyone(g)), to);
  }

  /** A square of the mover is occupied. */
  lemma OurOccupied(g: FOWChess, s: Square)
    requires Has(Our(g), s)
    ensures Position.Occupied(g.bitboards, s) && Position.PieceAt(g.bitboards, s) != Success(None)
  {
  }

  /**
   * Non-pawn moves: each starts on one of the mover's non-pawn pieces, goes
   * to a square of that piece's attack mask and never to a square the mover
   * occupies; every such move is yielded.
   */
  lemma NonPawnMovesSpec(g: FOWChess, mv: Move)
    requires NonPawnMoves(g).Success?
    ensures mv in NonPawnMoves(g).value <==> NonPawnMoveOf(g, mv)
  {
    var origins := Our(g) & !g.bitboards.pawns;
    SquaresOfMembers(origins, mv.frm);
    if Has(origins, mv.frm) {
      NonPawnOrigin(g, mv.frm, mv.to);
    }
    NonPawnMovesAt(g, mv);
  }

  /** Membership in the loop's moves, by origin and targets. */
  lemma NonPawnMovesAt(g: FOWChess, mv: Move)
    requires NonPawnMoves(g).Success?
    ensures mv in NonPawnMoves(g).value <==>
      mv.frm in SquaresOf(Our(g) & !g.bitboards.pawns) && NonPawnTargets(g, mv.frm).Success?
      && Has(NonPawnTargets(g, mv.frm).value, mv.to) && mv == SimpleMove(mv.to, mv.frm)
  {
    var r := NonPawnFrom(g, SquaresOf(Our(g) & !g.bitboards.pawns));
    assert NonPawnMoves(g) == r;
    NonPawnFromYields(g, SquaresOf(Our(g) & !g.bitboards.pawns), mv);
    assert (mv in r.value) == (mv in NonPawnMoves(g).value);
  }

  /** On an origin of a successful loop the targets are the squares the piece reaches that the mover does not hold. */
  lemma NonPawnOrigin(g: FOWChess, frm: Square, to: Square)
    requires NonPawnMoves(g).Success? && Has(Our(g) & !g.bitboards.pawns, frm)
    ensures NonPawnTargets(g, frm).Success?
    ensures Has(NonPawnTargets(g, frm).value, to) <==> !Has(Our(g), to) && PieceReaches(g, frm, to)
  {
    SquaresOfMembers(Our(g) & !g.bitboards.pawns, frm);
    AndHas(Our(g), !g.bitboards.pawns, frm);
    NonPawnFromSucceedsAt(g, SquaresOf(Our(g) & !g.bitboards.pawns), frm);
    NonPawnTargetsHas(g, frm, to);
  }

  /** The non-pawn loop raises exactly when `piece_at` raises on one of the mover's non-pawn pieces. */
  lemma NonPawnMovesFail(g: FOWChess)
    ensures NonPawnMoves(g).Failure? <==>
      exists s: Square :: Has(Our(g) & !g.bitboards.pawns, s) && Position.PieceAt(g.bitboards, s).Failure?
  {
    NonPawnFailNamed(g, NonPawnMoves(g), Our(g) & !g.bitboards.pawns);
  }

  lemma NonPawnFailNamed(g: FOWChess, r: Result<seq<Move>>, origins: Bitboard)
    requires origins == Our(g) & !g.bitboards.pawns && r == NonPawnFrom(g, SquaresOf(origins))
    ensures r.Failure? <==> exists s: Square :: Has(origins, s) && Position.PieceAt(g.bitboards, s).Failure?
  {
    NonPawnFailFound(g, r, origins);
    NonPawnFailSome(g, r, origins);
  }

  lemma NonPawnFailSome(g: FOWChess, r: Result<seq<Move>>, origins: Bitboard)
    requires origins == Our(g) & !g.bitboards.pawns && r == NonPawnFrom(g, SquaresOf(origins))
    ensures (exists s: Square :: Has(origins, s) && Position.PieceAt(g.bitboards, s).Failure?) ==> r.Failure?
  {
    if exists s: Square :: Has(origins, s) && Position.PieceAt(g.bitboards, s).Failure? {
      var s: Square :| Has(origins, s) && Position.PieceAt(g.bitboards, s).Failure?;
      NonPawnFailAt(g, r, origins, s);
    }
  }

  lemma NonPawnFailFound(g: FOWChess, r: Result<seq<Move>>, origins: Bitboard)
    requires origins == Our(g) & !g.bitboards.pawns && r == NonPawnFrom(g, SquaresOf(origins))
    ensures r.Failure? ==> exists s: Square :: Has(origins, s) && Position.PieceAt(g.bitboards, s).Failure?
  {
    if r.Success? {
      return;
    }
    var sq := SquaresOf(origins);
    NonPawnFromSucceeds(g, sq);
    var k :| 0 <= k < |sq| && NonPawnTargets(g, sq[k]).Failure?;
    SquaresOfMembers(origins, sq[k]);
    TargetsFail(g, sq[k]);
  }

  lemma NonPawnFailAt(g: FOWChess, r: Result<seq<Move>>, origins: Bitboard, s: Square)
    requires origins == Our(g) & !g.bitboards.pawns && r == NonPawnFrom(g, SquaresOf(origins))
    requires Has(origins, s) && Position.PieceAt(g.bitboards, s).Failure?
    ensures r.Failure?
  {
    var sq := SquaresOf(origins);
    NonPawnFromSucceeds(g, sq);
    SquaresOfMembers(origins, s);
    var k :| 0 <= k < |sq| && sq[k] == s;
    TargetsFail(g, s);
  }

  /** The targets of a square fail exactly when `piece_at` does. */
  lemma TargetsFail(g: FOWChess, s: Square)
    ensures NonPawnTargets(g, s).Failure? <==> Position.PieceAt(g.bitboards, s).Failure?
  {
  }

  /** The pushes to some targets raise exactly when one origin is off the board. */
  lemma {:induction false} PushMovesSucceed(tos: seq<Square>, delta: int)
    ensures PushMoves(tos, delta).Success? <==> forall t :: t in tos ==> 1 <= t as int + delta <= 64
    decreases |tos|
  {
    if tos != [] {
      PushMovesSucceed(tos[1..], delta);
      assert PushMoves(tos, delta).Success? <==>
        1 <= tos[0] as int + delta <= 64 && PushMoves(tos[1..], delta).Success?;
      if PushMoves(tos, delta).Success? {
        forall t | t in tos
          ensures 1 <= t as int + delta <= 64
        {
          if t != tos[0] {
            assert t in tos[1..];
          }
        }
      } else if 1 <= tos[0] as int + delta <= 64 {
        var t :| t in tos[1..] && !(1 <= t as int + delta <= 64);
        assert t in tos;
      } else {
        assert tos[0] in tos;
      }
    }
  }

  /** Otherwise each target gets one move, from the square `delta` away. */
  lemma {:induction false} PushMovesYield(tos: seq<Square>, delta: int, mv: Move)
    requires PushMoves(tos, delta).Success?
    ensures mv in PushMoves(tos, delta).value <==>
      mv.to in tos && mv.frm as int == mv.to as int + delta && mv == SimpleMove(mv.to, mv.frm)
    decreases |tos|
  {
    if tos != [] {
      var frm := SquareOfValue(tos[0] as int + delta).value;
      var rest := PushMoves(tos[1..], delta);
      assert PushMoves(tos, delta).value == [SimpleMove(tos[0], frm)] + rest.value;
      PushMovesYield(tos[1..], delta, mv);
      if mv.to in tos && mv.to != tos[0] {
        var k :| 0 <= k < |tos| && tos[k] == mv.to;
        assert tos[1..][k - 1] == mv.to;
      }
    }
  }

  /** Pushing one rank up onto empty squares: the square below holds a pawn. */
  lemma PushUpHas(pawns: Bitboard, occ: Bitboard, t: Square)
    ensures Has((pawns << 8) & !occ, t) <==> !Has(occ, t) && t > 8 && Has(pawns, t - 8)
  {
    AndNotHas(pawns << 8, occ, t);
    ShiftUpHas(pawns, t);
  }

  /** Pushing one rank down onto empty squares: the square above holds a pawn. */
  lemma PushDownHas(pawns: Bitboard, occ: Bitboard, t: Square)
    ensures Has((pawns >> 8) & !occ, t) <==> !Has(occ, t) && t <= 56 && Has(pawns, t + 8)
  {
    AndNotHas(pawns >> 8, occ, t);
    ShiftDownHas(pawns, t);
  }

  /** Square numbers `d` apart, as the push loops compute them and as square arithmetic. */
  lemma Apart(a: Square, b: Square, d: bv8)
    requires d <= 16
    ensures a as int == b as int - d as int <==> a + d == b
  {
  }

  /** A square a single push reaches: empty, with one of the mover's pawns one rank back. */
  lemma SinglePushHas(g: FOWChess, t: Square)
    ensures g.turn ==> (Has(SinglePushes(g), t) <==> !Has(Everyone(g), t) && t > 8 && Has(OurPawns(g), t - 8))
    ensures !g.turn ==> (Has(SinglePushes(g), t) <==> !Has(Everyone(g), t) && t <= 56 && Has(OurPawns(g), t + 8))
  {
    if g.turn {
      SinglePushHasWhite(g, t);
    } else {
      SinglePushHasBlack(g, t);
    }
  }

  lemma SinglePushHasWhite(g: FOWChess, t: Square)
    requires g.turn
    ensures Has(SinglePushes(g), t) <==> !Has(Everyone(g), t) && t > 8 && Has(OurPawns(g), t - 8)
  {
    var pawns, occ := OurPawns(g), Everyone(g);
    assert SinglePushes(g) == (pawns << 8) & !occ;
    PushUpHas(pawns, occ, t);
  }

  lemma SinglePushHasBlack(g: FOWChess, t: Square)
    requires !g.turn
    ensures Has(SinglePushes(g), t) <==> !Has(Everyone(g), t) && t <= 56 && Has(OurPawns(g), t + 8)
  {
    var pawns, occ := OurPawns(g), Everyone(g);
    assert SinglePushes(g) == (pawns >> 8) & !occ;
    PushDownHas(pawns, occ, t);
  }

  /** Every square a single push reaches has its origin on the board. */
  lemma SinglePushOrigins(g: FOWChess)
    ensures forall t :: t in SquaresOf(SinglePushes(g)) ==> 1 <= t as int - Forward(g.turn) <= 64
  {
    forall t | t in SquaresOf(SinglePushes(g))
      ensures 1 <= t as int - Forward(g.turn) <= 64
    {
      SquaresOfMembers(SinglePushes(g), t);
      SinglePushHas(g, t);
    }
  }

  /**
   * Single pushes: the section raises exactly when a white pawn stands on
   * rank 8; otherwise each move goes to an empty square from the mover's pawn
   * one rank back (8 below for white, 8 above for black), and every such
   * push is yielded.
   */
  lemma SinglePushSpec(g: FOWChess, mv: Move)
    ensures SinglePushMoves(g).Failure? <==> PushesOffBoard(g)
    ensures SinglePushMoves(g).Success? ==>
      (mv in SinglePushMoves(g).value <==> SinglePushOf(g, mv))
  {
    SinglePushFails(g);
    if !PushesOffBoard(g) {
      if g.turn {
        SinglePushWhite(g, mv);
      } else {
        SinglePushBlack(g, mv);
      }
    }
  }

  /** The single-push section raises exactly when a white pawn stands on rank 8. */
  lemma SinglePushFails(g: FOWChess)
    ensures SinglePushMoves(g).Failure? <==> PushesOffBoard(g)
  {
    var tos := SquaresOf(SinglePushes(g));
    PushMovesSucceed(tos, -Forward(g.turn));
    SinglePushOrigins(g);
  }

  lemma SinglePushWhite(g: FOWChess, mv: Move)
    requires g.turn && !PushesOffBoard(g)
    ensures SinglePushMoves(g).Success?
    ensures mv in SinglePushMoves(g).value <==>
      Has(OurPawns(g), mv.frm) && !Has(Everyone(g), mv.to) && mv.to == mv.frm + 8 && mv == SimpleMove(mv.to, mv.frm)
  {
    var tos := SquaresOf(SinglePushes(g));
    var r := PushMoves(tos, -8);
    assert SinglePushMoves(g) == r;
    SinglePushFails(g);
    PushMovesYield(tos, -8, mv);
    SquaresOfMembers(SinglePushes(g), mv.to);
    SinglePushHasWhite(g, mv.to);
    Apart(mv.frm, mv.to, 8);
    assert (mv in r.value) == (mv in SinglePushMoves(g).value);
  }

  lemma SinglePushBlack(g: FOWChess, mv: Move)
    requires !g.turn
    ensures SinglePushMoves(g).Success?
    ensures mv in SinglePushMoves(g).value <==>
      Has(OurPawns(g), mv.frm) && !Has(Everyone(g), mv.to) && mv.frm == mv.to + 8 && mv == SimpleMove(mv.to, mv.frm)
  {
    var tos := SquaresOf(SinglePushes(g));
    var r := PushMoves(tos, 8);
    assert SinglePushMoves(g) == r;
    SinglePushFails(g);
    PushMovesYield(tos, 8, mv);
    SquaresOfMembers(SinglePushes(g), mv.to);
    SinglePushHasBlack(g, mv.to);
    Apart(mv.to, mv.frm, 8);
    assert (mv in r.value) == (mv in SinglePushMoves(g).value);
  }

  /** A square a double push reaches: on rank 4 (white) or 5 (black), empty, with a single push behind it. */
  lemma DoublePushHas(g: FOWChess, t: Square)
    ensures g.turn ==> (Has(DoublePushes(g), t) <==> Rank(t) == 4 && !Has(Everyone(g), t) && t > 8 && Has(SinglePushes(g), t - 8))
    ensures !g.turn ==> (Has(DoublePushes(g), t) <==> Rank(t) == 5 && !Has(Everyone(g), t) && t <= 56 && Has(SinglePushes(g), t + 8))
  {
    if g.turn {
      DoublePushHasWhite(g, t);
    } else {
      DoublePushHasBlack(g, t);
    }
  }

  lemma DoublePushHasWhite(g: FOWChess, t: Square)
    requires g.turn
    ensures Has(DoublePushes(g), t) <==> Rank(t) == 4 && !Has(Everyone(g), t) && t > 8 && Has(SinglePushes(g), t - 8)
  {
    DoubleUpHas(DoublePushes(g), SinglePushes(g), 4, Everyone(g), t);
  }

  lemma DoublePushHasBlack(g: FOWChess, t: Square)
    requires !g.turn
    ensures Has(DoublePushes(g), t) <==> Rank(t) == 5 && !Has(Everyone(g), t) && t <= 56 && Has(SinglePushes(g), t + 8)
  {
    DoubleDownHas(DoublePushes(g), SinglePushes(g), 5, Everyone(g), t);
  }

  /** The second step of a white double push, on abstract bitboards. */
  lemma DoubleUpHas(double: Bitboard, single: Bitboard, r: bv8, occ: Bitboard, t: Square)
    requires 1 <= r <= 8 && double == ((single << 8) & RankMask(r)) & !occ
    ensures Has(double, t) <==> Rank(t) == r && !Has(occ, t) && t > 8 && Has(single, t - 8)
  {
    RankHas(r, t);
    AndNotHas((single << 8) & RankMask(r), occ, t);
    AndHas(single << 8, RankMask(r), t);
    ShiftUpHas(single, t);
  }

  /** The second step of a black double push, on abstract bitboards. */
  lemma DoubleDownHas(double: Bitboard, single: Bitboard, r: bv8, occ: Bitboard, t: Square)
    requires 1 <= r <= 8 && double == ((single >> 8) & RankMask(r)) & !occ
    ensures Has(double, t) <==> Rank(t) == r && !Has(occ, t) && t <= 56 && Has(single, t + 8)
  {
    RankHas(r, t);
    AndNotHas((single >> 8) & RankMask(r), occ, t);
    AndHas(single >> 8, RankMask(r), t);
    ShiftDownHas(single, t);
  }

  /**
   * Double pushes never raise; each goes to an empty square on rank 4
   * (white) or 5 (black), over an empty square, from the mover's pawn two
   * ranks back, and every such push is yielded.
   */
  lemma DoublePushSpec(g: FOWChess, mv: Move)
    ensures DoublePushMoves(g).Success?
    ensures mv in DoublePushMoves(g).value <==> DoublePushOf(g, mv)
  {
    if g.turn {
      DoublePushWhite(g, mv);
    } else {
      DoublePushBlack(g, mv);
    }
  }

  /** The double-push section never raises. */
  lemma DoublePushSucceeds(g: FOWChess)
    ensures DoublePushMoves(g).Success?
  {
    PushMovesSucceed(SquaresOf(DoublePushes(g)), -2 * Forward(g.turn));
    DoublePushOrigins(g);
  }

  lemma DoublePushWhite(g: FOWChess, mv: Move)
    requires g.turn
    ensures DoublePushMoves(g).Success?
    ensures mv in DoublePushMoves(g).value <==>
      Rank(mv.to) == 4 && Has(OurPawns(g), mv.frm) && !Has(Everyone(g), mv.to)
      && mv.to == mv.frm + 16 && !Has(Everyone(g), mv.frm + 8) && mv == SimpleMove(mv.to, mv.frm)
  {
    var tos := SquaresOf(DoublePushes(g));
    var r := PushMoves(tos, -16);
    assert DoublePushMoves(g) == r;
    DoublePushSucceeds(g);
    PushMovesYield(tos, -16, mv);
    SquaresOfMembers(DoublePushes(g), mv.to);
    DoublePushHasWhite(g, mv.to);
    Apart(mv.frm, mv.to, 16);
    if mv.to > 8 {
      SinglePushHasWhite(g, mv.to - 8);
    }
    assert (mv in r.value) == (mv in DoublePushMoves(g).value);
  }

  lemma DoublePushBlack(g: FOWChess, mv: Move)
    requires !g.turn
    ensures DoublePushMoves(g).Success?
    ensures mv in DoublePushMoves(g).value <==>
      Rank(mv.to) == 5 && Has(OurPawns(g), mv.frm) && !Has(Everyone(g), mv.to)
      && mv.frm == mv.to + 16 && !Has(Everyone(g), mv.to + 8) && mv == SimpleMove(mv.to, mv.frm)
  {
    var tos := SquaresOf(DoublePushes(g));
    var r := PushMoves(tos, 16);
    assert DoublePushMoves(g) == r;
    DoublePushSucceeds(g);
    PushMovesYield(tos, 16, mv);
    SquaresOfMembers(DoublePushes(g), mv.to);
    DoublePushHasBlack(g, mv.to);
    Apart(mv.to, mv.frm, 16);
    if mv.to <= 56 {
      SinglePushHasBlack(g, mv.to + 8);
    }
    assert (mv in r.value) == (mv in DoublePushMoves(g).value);
  }

  /** Every square a double push reaches has its origin on the board. */
  lemma DoublePushOrigins(g: FOWChess)
    ensures forall t :: t in SquaresOf(DoublePushes(g)) ==> 1 <= t as int - 2 * Forward(g.turn) <= 64
  {
    forall t | t in SquaresOf(DoublePushes(g))
      ensures 1 <= t as int - 2 * Forward(g.turn) <= 64
    {
      SquaresOfMembers(DoublePushes(g), t);
      DoublePushHas(g, t);
      if g.turn {
        SinglePushHas(g, t - 8);
      } else {
        SinglePushHas(g, t + 8);
      }
    }
  }

  /** A pawn attacks a square exactly when a pawn of the other colour there would attack it. */
  lemma PawnAttacksMirror(s: Square, t: Square, white: bool)
    ensures Has(PawnAttacks(s, white), t) <==> Has(PawnAttacks(t, !white), s)
  {
    PawnAttacksSpec(s, white, t);
    PawnAttacksSpec(t, !white, s);
  }

  /** The moves from a square to the squares two bitboards share. */
  lemma MovesFromScan(frm: Square, a: Bitboard, b: Bitboard, mv: Move)
    ensures mv in MovesFrom(frm, SquaresOf(a & b)) <==> Has(a, mv.to) && Has(b, mv.to) && mv == SimpleMove(mv.to, frm)
  {
    MovesFromMembers(frm, SquaresOf(a & b), mv);
    SquaresOfMembers(a & b, mv.to);
    AndHas(a, b, mv.to);
  }

  /** The moves to a square from the squares two bitboards share. */
  lemma MovesToScan(to: Square, a: Bitboard, b: Bitboard, mv: Move)
    ensures mv in MovesTo(to, SquaresOf(a & b)) <==> Has(a, mv.frm) && Has(b, mv.frm) && mv == SimpleMove(to, mv.frm)
  {
    MovesToMembers(to, SquaresOf(a & b), mv);
    SquaresOfMembers(a & b, mv.frm);
    AndHas(a, b, mv.frm);
  }

  /** One pawn's captures: to each square it attacks that an opposing piece holds. */
  lemma PawnCapturesFromSpec(g: FOWChess, frm: Square, mv: Move)
    ensures mv in PawnCapturesFrom(g, frm) <==>
      Has(PawnAttacks(frm, g.turn), mv.to) && Has(Their(g), mv.to) && mv == SimpleMove(mv.to, frm)
  {
    PawnCapturesFromNamed(g, frm, mv, PawnCapturesFrom(g, frm), PawnAttacks(frm, g.turn), Their(g));
  }

  lemma PawnCapturesFromNamed(g: FOWChess, frm: Square, mv: Move, ms: seq<Move>, a: Bitboard, b: Bitboard)
    requires ms == PawnCapturesFrom(g, frm) && a == PawnAttacks(frm, g.turn) && b == Their(g)
    ensures mv in ms <==> Has(a, mv.to) && Has(b, mv.to) && mv == SimpleMove(mv.to, frm)
  {
    MovesFromScan(frm, a, b, mv);
  }

  /** The capture loop: from each of the mover's pawns to each opposing piece it attacks. */
  lemma PawnCapturesSpec(g: FOWChess, mv: Move)
    ensures mv in FlatMap(SquaresOf(OurPawns(g)), (frm: Square) => PawnCapturesFrom(g, frm)) <==> PawnCaptureOf(g, mv)
  {
    var f := (frm: Square) => PawnCapturesFrom(g, frm);
    FlatMapScan(OurPawns(g), f, mv);
    PawnCapturesFromSpec(g, mv.frm, mv);
    if exists s: Square :: Has(OurPawns(g), s) && mv in f(s) {
      var s: Square :| Has(OurPawns(g), s) && mv in f(s);
      PawnCapturesFromSpec(g, s, mv);
    }
  }

  /**
   * En passant: when the en-passant square is set and empty, a move to it
   * from each of the mover's pawns that attacks it, and no other.
   */
  lemma EnPassantSpec(g: FOWChess, mv: Move)
    ensures mv in EnPassantMoves(g) <==> EnPassantOf(g, mv)
  {
    if EnPassantOpen(g) {
      EnPassantOpenSpec(g, mv);
    }
  }

  lemma EnPassantOpenSpec(g: FOWChess, mv: Move)
    requires EnPassantOpen(g)
    ensures mv in EnPassantMoves(g) <==>
      mv.to == EnPassantSquare(g) && Has(OurPawns(g), mv.frm) && Has(PawnAttacks(mv.frm, g.turn), mv.to)
      && mv == SimpleMove(mv.to, mv.frm)
  {
    EnPassantMovesOpen(g);
    CapturesOnto(EnPassantMoves(g), EnPassantSquare(g), g.turn, OurPawns(g), mv);
  }

  /** The captures onto a square: from each of some pawns that attacks it. */
  lemma CapturesOnto(moves: seq<Move>, ep: Square, white: bool, pawns: Bitboard, mv: Move)
    requires moves == MovesTo(ep, SquaresOf(PawnAttacks(ep, !white) & pawns))
    ensures mv in moves <==>
      mv.to == ep && Has(pawns, mv.frm) && Has(PawnAttacks(mv.frm, white), mv.to) && mv == SimpleMove(mv.to, mv.frm)
  {
    MovesToScan(ep, PawnAttacks(ep, !white), pawns, mv);
    PawnAttacksMirror(mv.frm, ep, white);
  }

  lemma EnPassantMovesOpen(g: FOWChess)
    requires EnPassantOpen(g)
    ensures EnPassantMoves(g) == MovesTo(EnPassantSquare(g), SquaresOf(PawnAttacks(EnPassantSquare(g), !g.turn) & OurPawns(g)))
  {
  }

  /** The en-passant square of a bitboard holding one square is that square. */
  lemma EnPassantSquareOf(g: FOWChess, s: Square)
    requires g.special.epBitboard == FromSquare(s)
    ensures EnPassantSquare(g) == s
  {
    BitLengthOfSquare(s);
  }

  /** A promotion in place of a pawn to a knight, bishop or rook of the given colour. */
  predicate PromotesInPlace(white: bool, mv: Move)
  {
    && mv.to == mv.frm && mv.rookTo.None? && mv.rookFrm.None? && mv.promotionTo.Some?
    && 2 <= Kind(mv.promotionTo.value) <= 4 && (IsWhite(mv.promotionTo.value) <==> white)
  }

  /** The three promotions of one pawn are exactly its in-place promotions. */
  lemma PromotionsOfSpec(g: FOWChess, pawn: Square, mv: Move)
    ensures mv in PromotionsOf(g, pawn) <==> mv.frm == pawn && PromotesInPlace(g.turn, mv)
  {
    if mv.frm == pawn && PromotesInPlace(g.turn, mv) {
      var p := mv.promotionTo.value;
      KindAndColour(p);
      assert p == PromotionPiece(g.turn, Kind(p));
      assert mv == PromotionMove(pawn, p);
    }
  }

  /**
   * Promotions: when one of the mover's pawns stands on the mover's own back
   * rank, every pawn of the mover is offered the three promotions in place.
   */
  lemma PromotionSpec(g: FOWChess, mv: Move)
    ensures mv in PromotionMoves(g) <==> PromotionOf(g, mv)
  {
    if Meets(BackRank(g.turn), OurPawns(g)) {
      var f := (pawn: Square) => PromotionsOf(g, pawn);
      assert PromotionMoves(g) == FlatMap(SquaresOf(OurPawns(g)), f);
      FlatMapScan(OurPawns(g), f, mv);
      PromotionsOfSpec(g, mv.frm, mv);
      if exists s: Square :: Has(OurPawns(g), s) && mv in f(s) {
        var s: Square :| Has(OurPawns(g), s) && mv in f(s);
        PromotionsOfSpec(g, s, mv);
      }
    }
  }

  /** `Square(bit_length)` of a non-empty bitboard is its highest square. */
  lemma SquareOfBitLength(b: Bitboard)
    requires b != 0
    ensures SquareOfValue(BitLength(b) as int) == Success(HighestSquare(b))
  {
    HighestSquareHas(b);
  }

  /** The attack test on a non-empty mask asks about its highest square. */
  lemma AttackingHighest(g: FOWChess, mask: Bitboard)
    requires mask != 0
    ensures AnyoneAttacking(g, mask) == Success(AttackedAt(g, HighestSquare(mask)))
  {
    SquareOfBitLength(mask);
  }

  /** Testing against two squares' masks. */
  lemma MeetsTwo(x: Bitboard, a: Square, b: Square)
    ensures Meets(x, FromSquare(a) | FromSquare(b)) <==> Has(x, a) || Has(x, b)
  {
    MeetsOr(x, FromSquare(a), FromSquare(b));
    MeetsSquare(x, a);
    MeetsSquare(x, b);
  }

  /** Testing against three squares' masks. */
  lemma MeetsThree(x: Bitboard, a: Square, b: Square, c: Square)
    ensures Meets(x, FromSquare(a) | FromSquare(b) | FromSquare(c)) <==> Has(x, a) || Has(x, b) || Has(x, c)
  {
    var y := FromSquare(a) | FromSquare(b);
    MeetsOr(x, y, FromSquare(c));
    MeetsTwo(x, a, b);
    MeetsSquare(x, c);
    OrGlue(Meets(x, y | FromSquare(c)), Meets(x, y), Meets(x, FromSquare(c)), Has(x, a), Has(x, b), Has(x, c));
  }

  /** The propositional step of the three-square test. */
  lemma OrGlue(m: bool, p: bool, q: bool, ha: bool, hb: bool, hc: bool)
    requires m <==> p || q
    requires p <==> ha || hb
    requires q <==> hc
    ensures m <==> ha || hb || hc
  {
  }

  /** The corner mask of a file is the mask of that file's square on the mover's back rank. */
  lemma CornerMaskSquare(g: FOWChess, file: bv8)
    requires 1 <= file <= 8
    ensures CornerMask(g, file) == FromSquare(HomeSquare(g, file))
  {
    var r: bv8 := HomeRank(g.turn);
    assert BackRank(g.turn) == RankMask(r);
    forall s: Square
      ensures Has(CornerMask(g, file), s) == Has(FromSquare(HomeSquare(g, file)), s)
    {
      AndHas(RankMask(r), FileMask(file), s);
      RankHas(r, s);
      FileHas(file, s);
      HasSquare(HomeSquare(g, file), s);
      Special.SquareCoordinates(HomeSquare(g, file), s);
    }
    BitboardExt(CornerMask(g, file), FromSquare(HomeSquare(g, file)));
  }

  /** The mover's kings. */
  function OurKing(g: FOWChess): Bitboard
  {
    g.bitboards.kings & Our(g)
  }

  /**
   * The attack tests of a castling move: on the king's mask and two squares.
   * An empty king mask raises before any square is asked about.
   */
  lemma AnyAttackedKingAnd(g: FOWChess, king: Bitboard, a: Square, b: Square)
    ensures king == 0 ==> AnyAttacked(g, [king, FromSquare(a), FromSquare(b)]) == Failure(ValueError)
    ensures king != 0 ==> (AnyAttacked(g, [king, FromSquare(a), FromSquare(b)]) ==
      Success(AttackedAt(g, HighestSquare(king)) || AttackedAt(g, a) || AttackedAt(g, b)))
  {
    var masks := [king, FromSquare(a), FromSquare(b)];
    assert masks[1..] == [FromSquare(a), FromSquare(b)];
    if king != 0 {
      AttackingHighest(g, king);
      AttackingSquare(g, a);
      AttackingSquare(g, b);
      AnyAttackedPair(g, FromSquare(a), FromSquare(b), AttackedAt(g, a), AttackedAt(g, b));
      if !AttackedAt(g, HighestSquare(king)) {
        assert AnyAttacked(g, masks) == AnyAttacked(g, masks[1..]);
      }
    }
  }

  lemma AnyAttackedPair(g: FOWChess, m1: Bitboard, m2: Bitboard, r1: bool, r2: bool)
    requires AnyoneAttacking(g, m1) == Success(r1) && AnyoneAttacking(g, m2) == Success(r2)
    ensures AnyAttacked(g, [m1, m2]) == Success(r1 || r2)
  {
    var masks := [m1, m2];
    assert masks[1..] == [m2];
    AnyAttackedSingle(g, m2, r2);
    if !r1 {
      assert AnyAttacked(g, masks) == AnyAttacked(g, [m2]);
    }
  }

  lemma AnyAttackedSingle(g: FOWChess, m: Bitboard, r: bool)
    requires AnyoneAttacking(g, m) == Success(r)
    ensures AnyAttacked(g, [m]) == Success(r)
  {
    var masks := [m];
    assert masks[1..] == [];
  }

  /**
   * One castling move: it raises when its three tests pass and the mover has
   * no king; otherwise it is offered exactly when the tests pass and neither
   * the king's square nor the two squares are attacked. The king leaves from
   * the highest square of the mover's kings.
   */
  lemma CastleIfSpec(g: FOWChess, rookRight: Bitboard, between: Bitboard, a: Square, b: Square,
                     to: Square, rookTo: Square, rookFrm: Square, empty: bool, r: Result<seq<Move>>)
    requires r == CastleIf(g, rookRight, between, [FromSquare(a), FromSquare(b)], to, rookTo, rookFrm)
    requires Meets(!Everyone(g), between) == empty
    ensures var tests := Meets(g.special.castlingKings, Our(g)) && Meets(rookRight, Our(g)) && empty;
      r == if tests && OurKing(g) == 0 then Failure(ValueError)
        else if tests && !AttackedAt(g, HighestSquare(OurKing(g))) && !AttackedAt(g, a) && !AttackedAt(g, b)
        then Success([CastlingMove(to, HighestSquare(OurKing(g)), rookTo, rookFrm)])
        else Success([])
  {
    if !(Meets(g.special.castlingKings, Our(g)) && Meets(rookRight, Our(g)) && empty) {
      CastleIfOff(g, rookRight, between, [FromSquare(a), FromSquare(b)], to, rookTo, rookFrm);
    } else if OurKing(g) == 0 {
      CastleIfNoKing(g, rookRight, between, a, b, to, rookTo, rookFrm);
    } else {
      CastleIfKing(g, rookRight, between, a, b, to, rookTo, rookFrm);
    }
  }

  lemma CastleIfNoKing(g: FOWChess, rookRight: Bitboard, between: Bitboard, a: Square, b: Square,
                       to: Square, rookTo: Square, rookFrm: Square)
    requires Meets(g.special.castlingKings, Our(g)) && Meets(rookRight, Our(g)) && Meets(!Everyone(g), between)
    requires OurKing(g) == 0
    ensures CastleIf(g, rookRight, between, [FromSquare(a), FromSquare(b)], to, rookTo, rookFrm) == Failure(ValueError)
  {
    var king := OurKing(g);
    var passed := [FromSquare(a), FromSquare(b)];
    assert AnyAttacked(g, [king] + passed) == Failure(ValueError) by {
      assert [king] + passed == [king, FromSquare(a), FromSquare(b)];
      AnyAttackedKingAnd(g, king, a, b);
    }
    CastleIfRaises(g, rookRight, between, passed, to, rookTo, rookFrm, ValueError);
  }

  lemma CastleIfKing(g: FOWChess, rookRight: Bitboard, between: Bitboard, a: Square, b: Square,
                     to: Square, rookTo: Square, rookFrm: Square)
    requires Meets(g.special.castlingKings, Our(g)) && Meets(rookRight, Our(g)) && Meets(!Everyone(g), between)
    requires OurKing(g) != 0
    ensures CastleIf(g, rookRight, between, [FromSquare(a), FromSquare(b)], to, rookTo, rookFrm) ==
      if AttackedAt(g, HighestSquare(OurKing(g))) || AttackedAt(g, a) || AttackedAt(g, b) then Success([])
      else Success([CastlingMove(to, HighestSquare(OurKing(g)), rookTo, rookFrm)])
  {
    AnyAttackedCastling(g, a, b);
    CastleIfTested(g, rookRight, between, [FromSquare(a), FromSquare(b)], to, rookTo, rookFrm,
      AttackedAt(g, HighestSquare(OurKing(g))) || AttackedAt(g, a) || AttackedAt(g, b));
  }

  lemma AnyAttackedCastling(g: FOWChess, a: Square, b: Square)
    requires OurKing(g) != 0
    ensures AnyAttacked(g, [OurKing(g)] + [FromSquare(a), FromSquare(b)]) ==
      Success(AttackedAt(g, HighestSquare(OurKing(g))) || AttackedAt(g, a) || AttackedAt(g, b))
  {
    var king := OurKing(g);
    assert [king] + [FromSquare(a), FromSquare(b)] == [king, FromSquare(a), FromSquare(b)];
    AnyAttackedKingAnd(g, king, a, b);
  }

  lemma CastleIfOff(g: FOWChess, rookRight: Bitboard, between: Bitboard, passed: seq<Bitboard>,
                    to: Square, rookTo: Square, rookFrm: Square)
    requires !(Meets(g.special.castlingKings, Our(g)) && Meets(rookRight, Our(g)) && Meets(!Everyone(g), between))
    ensures CastleIf(g, rookRight, between, passed, to, rookTo, rookFrm) == Success([])
  {
  }

  lemma CastleIfOn(g: FOWChess, rookRight: Bitboard, between: Bitboard, passed: seq<Bitboard>,
                   to: Square, rookTo: Square, rookFrm: Square)
    requires Meets(g.special.castlingKings, Our(g)) && Meets(rookRight, Our(g)) && Meets(!Everyone(g), between)
    ensures CastleIf(g, rookRight, between, passed, to, rookTo, rookFrm) == SafeCastle(g, OurKing(g), passed, to, rookTo, rookFrm)
  {
  }

  lemma CastleIfRaises(g: FOWChess, rookRight: Bitboard, between: Bitboard, passed: seq<Bitboard>,
                       to: Square, rookTo: Square, rookFrm: Square, e: Error)
    requires Meets(g.special.castlingKings, Our(g)) && Meets(rookRight, Our(g)) && Meets(!Everyone(g), between)
    requires AnyAttacked(g, [OurKing(g)] + passed) == Failure(e)
    ensures CastleIf(g, rookRight, between, passed, to, rookTo, rookFrm) == Failure(e)
  {
  }

  lemma CastleIfTested(g: FOWChess, rookRight: Bitboard, between: Bitboard, passed: seq<Bitboard>,
                       to: Square, rookTo: Square, rookFrm: Square, attacked: bool)
    requires Meets(g.special.castlingKings, Our(g)) && Meets(rookRight, Our(g)) && Meets(!Everyone(g), between)
    requires AnyAttacked(g, [OurKing(g)] + passed) == Success(attacked) && OurKing(g) != 0
    ensures CastleIf(g, rookRight, between, passed, to, rookTo, rookFrm) ==
      if attacked then Success([]) else Success([CastlingMove(to, HighestSquare(OurKing(g)), rookTo, rookFrm)])
  {
    SquareOfBitLength(OurKing(g));
  }



  /**
   * Kingside castling: the king right and the kingside rook right must be
   * held by the mover and f or g on the back rank must be empty (the test is
   * that an empty square meets f|g, so one empty square suffices); then an
   * empty king mask raises, and otherwise the king goes to g and the rook
   * from h to f unless the king's square, f or g is attacked.
   */
  lemma KingsideSpec(g: FOWChess)
    ensures var f, gs, h := HomeSquare(g, 6), HomeSquare(g, 7), HomeSquare(g, 8);
      var tests := Meets(g.special.castlingKings, Our(g)) && Meets(Special.KingsideCastling(g.special), Our(g))
        && (!Has(Everyone(g), f) || !Has(Everyone(g), gs));
      KingsideCastle(g) ==
        if tests && OurKing(g) == 0 then Failure(ValueError)
        else if tests && !AttackedAt(g, HighestSquare(OurKing(g))) && !AttackedAt(g, f) && !AttackedAt(g, gs)
        then Success([CastlingMove(gs, HighestSquare(OurKing(g)), f, h)])
        else Success([])
  {
    var f, gs, h := HomeSquare(g, 6), HomeSquare(g, 7), HomeSquare(g, 8);
    KingsideMasks(g);
    CastleOverTwo(g, Special.KingsideCastling(g.special), f, gs, gs, f, h, KingsideCastle(g));
  }

  /** `CastleIf` when the king crosses two squares that are also the ones tested for emptiness. */
  lemma CastleOverTwo(g: FOWChess, rookRight: Bitboard, x: Square, y: Square,
                      to: Square, rookTo: Square, rookFrm: Square, r: Result<seq<Move>>)
    requires r == CastleIf(g, rookRight, FromSquare(x) | FromSquare(y), [FromSquare(x), FromSquare(y)], to, rookTo, rookFrm)
    ensures var tests := Meets(g.special.castlingKings, Our(g)) && Meets(rookRight, Our(g))
        && (!Has(Everyone(g), x) || !Has(Everyone(g), y));
      r == if tests && OurKing(g) == 0 then Failure(ValueError)
        else if tests && !AttackedAt(g, HighestSquare(OurKing(g))) && !AttackedAt(g, x) && !AttackedAt(g, y)
        then Success([CastlingMove(to, HighestSquare(OurKing(g)), rookTo, rookFrm)])
        else Success([])
  {
    EmptyEither(Everyone(g), x, y);
    CastleIfSpec(g, rookRight, FromSquare(x) | FromSquare(y), x, y, to, rookTo, rookFrm,
      !Has(Everyone(g), x) || !Has(Everyone(g), y), r);
  }

  /** `CastleIf` when three squares are tested for emptiness and the king crosses the last two. */
  lemma CastleOverThree(g: FOWChess, rookRight: Bitboard, w: Square, x: Square, y: Square,
                        to: Square, rookTo: Square, rookFrm: Square, r: Result<seq<Move>>)
    requires r == CastleIf(g, rookRight, FromSquare(w) | FromSquare(x) | FromSquare(y),
      [FromSquare(x), FromSquare(y)], to, rookTo, rookFrm)
    ensures var tests := Meets(g.special.castlingKings, Our(g)) && Meets(rookRight, Our(g))
        && (!Has(Everyone(g), w) || !Has(Everyone(g), x) || !Has(Everyone(g), y));
      r == if tests && OurKing(g) == 0 then Failure(ValueError)
        else if tests && !AttackedAt(g, HighestSquare(OurKing(g))) && !AttackedAt(g, x) && !AttackedAt(g, y)
        then Success([CastlingMove(to, HighestSquare(OurKing(g)), rookTo, rookFrm)])
        else Success([])
  {
    EmptyAny(Everyone(g), w, x, y);
    CastleIfSpec(g, rookRight, FromSquare(w) | FromSquare(x) | FromSquare(y), x, y, to, rookTo, rookFrm,
      !Has(Everyone(g), w) || !Has(Everyone(g), x) || !Has(Everyone(g), y), r);
  }

  /** An empty square meets a two-square mask exactly when one of them is empty. */
  lemma EmptyEither(occ: Bitboard, x: Square, y: Square)
    ensures Meets(!occ, FromSquare(x) | FromSquare(y)) <==> !Has(occ, x) || !Has(occ, y)
  {
    MeetsTwo(!occ, x, y);
    NotHas(occ, x);
    NotHas(occ, y);
  }

  /** The same for three squares. */
  lemma EmptyAny(occ: Bitboard, x: Square, y: Square, z: Square)
    ensures Meets(!occ, FromSquare(x) | FromSquare(y) | FromSquare(z)) <==> !Has(occ, x) || !Has(occ, y) || !Has(occ, z)
  {
    MeetsThree(!occ, x, y, z);
    NotHas(occ, x);
    NotHas(occ, y);
    NotHas(occ, z);
  }

  lemma KingsideMasks(g: FOWChess)
    ensures KingsideCastle(g) == CastleIf(g, Special.KingsideCastling(g.special),
      FromSquare(HomeSquare(g, 6)) | FromSquare(HomeSquare(g, 7)),
      [FromSquare(HomeSquare(g, 6)), FromSquare(HomeSquare(g, 7))], HomeSquare(g, 7), HomeSquare(g, 6), HomeSquare(g, 8))
  {
    CornerMaskSquare(g, 6);
    CornerMaskSquare(g, 7);
  }

  /**
   * Queenside castling: the same with b, c and d tested for emptiness (one
   * empty square suffices) and c and d for attack; the king goes to c and
   * the rook from a to d.
   */
  lemma QueensideSpec(g: FOWChess)
    ensures var a, c, d := HomeSquare(g, 1), HomeSquare(g, 3), HomeSquare(g, 4);
      var tests := Meets(g.special.castlingKings, Our(g)) && Meets(Special.QueensideCastling(g.special), Our(g))
        && (!Has(Everyone(g), HomeSquare(g, 2)) || !Has(Everyone(g), c) || !Has(Everyone(g), d));
      QueensideCastle(g) ==
        if tests && OurKing(g) == 0 then Failure(ValueError)
        else if tests && !AttackedAt(g, HighestSquare(OurKing(g))) && !AttackedAt(g, c) && !AttackedAt(g, d)
        then Success([CastlingMove(c, HighestSquare(OurKing(g)), d, a)])
        else Success([])
  {
    var a, b, c, d := HomeSquare(g, 1), HomeSquare(g, 2), HomeSquare(g, 3), HomeSquare(g, 4);
    QueensideMasks(g);
    CastleOverThree(g, Special.QueensideCastling(g.special), b, c, d, c, d, a, QueensideCastle(g));
  }

  lemma QueensideMasks(g: FOWChess)
    ensures QueensideCastle(g) == CastleIf(g, Special.QueensideCastling(g.special),
      FromSquare(HomeSquare(g, 2)) | FromSquare(HomeSquare(g, 3)) | FromSquare(HomeSquare(g, 4)),
      [FromSquare(HomeSquare(g, 3)), FromSquare(HomeSquare(g, 4))], HomeSquare(g, 3), HomeSquare(g, 4), HomeSquare(g, 1))
  {
    CornerMaskSquare(g, 2);
    CornerMaskSquare(g, 3);
    CornerMaskSquare(g, 4);
  }

  // ---------------------------------------------------------------------
  // The whole generator.

  /** The kingside tests on rights and emptiness pass: one of f and g is empty. */
  predicate KingsideOpen(g: FOWChess)
  {
    Meets(g.special.castlingKings, Our(g)) && Meets(Special.KingsideCastling(g.special), Our(g))
    && (!Has(Everyone(g), HomeSquare(g, 6)) || !Has(Everyone(g), HomeSquare(g, 7)))
  }

  /** The queenside tests on rights and emptiness pass: one of b, c and d is empty. */
  predicate QueensideOpen(g: FOWChess)
  {
    Meets(g.special.castlingKings, Our(g)) && Meets(Special.QueensideCastling(g.special), Our(g))
    && (!Has(Everyone(g), HomeSquare(g, 2)) || !Has(Everyone(g), HomeSquare(g, 3)) || !Has(Everyone(g), HomeSquare(g, 4)))
  }

  /** No opposing piece attacks the king's square or either square it crosses. */
  predicate KingPathSafe(g: FOWChess, x: Square, y: Square)
    requires OurKing(g) != 0
  {
    !AttackedAt(g, HighestSquare(OurKing(g))) && !AttackedAt(g, x) && !AttackedAt(g, y)
  }

  /**
   * A castling move the section yields: the mover holds a king right and a
   * rook right and has a king, and the move is the kingside or the queenside
   * one with that side's tests passed and its path unattacked.
   */
  predicate CastleOf(g: FOWChess, mv: Move)
  {
    && Meets(g.special.castlingKings, Our(g)) && Meets(g.special.castlingRooks, Our(g)) && OurKing(g) != 0
    && (KingsideMoveOf(g, mv) || QueensideMoveOf(g, mv))
  }

  /** Kingside castling is allowed: the emptiness test passes and f and g are unattacked. */
  predicate KingsideAllowed(g: FOWChess)
    requires OurKing(g) != 0
  {
    KingsideOpen(g) && KingPathSafe(g, HomeSquare(g, 6), HomeSquare(g, 7))
  }

  /** Queenside castling is allowed: the emptiness test passes and c and d are unattacked. */
  predicate QueensideAllowed(g: FOWChess)
    requires OurKing(g) != 0
  {
    QueensideOpen(g) && KingPathSafe(g, HomeSquare(g, 3), HomeSquare(g, 4))
  }

  /** The kingside castling move: king to g, rook from h to f. */
  function KingsideMove(g: FOWChess): Move
    requires OurKing(g) != 0
  {
    CastlingMove(HomeSquare(g, 7), HighestSquare(OurKing(g)), HomeSquare(g, 6), HomeSquare(g, 8))
  }

  /** The queenside castling move: king to c, rook from a to d. */
  function QueensideMove(g: FOWChess): Move
    requires OurKing(g) != 0
  {
    CastlingMove(HomeSquare(g, 3), HighestSquare(OurKing(g)), HomeSquare(g, 4), HomeSquare(g, 1))
  }

  /** The kingside castling move, when allowed. */
  predicate KingsideMoveOf(g: FOWChess, mv: Move)
    requires OurKing(g) != 0
  {
    KingsideAllowed(g) && mv == KingsideMove(g)
  }

  /** The queenside castling move, when allowed. */
  predicate QueensideMoveOf(g: FOWChess, mv: Move)
    requires OurKing(g) != 0
  {
    QueensideAllowed(g) && mv == QueensideMove(g)
  }

  /**
   * The castling section raises only when the mover holds the rights, one
   * side's emptiness test passes and the mover has no king (the scan of an
   * empty king mask); otherwise it yields exactly the castling moves above.
   */
  lemma CastlingMovesSpec(g: FOWChess, mv: Move)
    ensures CastlingMoves(g).Failure? <==>
      && Meets(g.special.castlingKings, Our(g)) && Meets(g.special.castlingRooks, Our(g)) && OurKing(g) == 0
      && (KingsideOpen(g) || QueensideOpen(g))
    ensures CastlingMoves(g).Failure? ==> CastlingMoves(g).error == ValueError
    ensures CastlingMoves(g).Success? ==> (mv in CastlingMoves(g).value <==> CastleOf(g, mv))
  {
    if Meets(g.special.castlingKings, Our(g)) && Meets(g.special.castlingRooks, Our(g)) {
      if OurKing(g) == 0 {
        CastlingNoKing(g);
      } else {
        CastlingWithKing(g, mv);
      }
    }
  }

  lemma CastlingNoKing(g: FOWChess)
    requires Meets(g.special.castlingKings, Our(g)) && Meets(g.special.castlingRooks, Our(g)) && OurKing(g) == 0
    ensures CastlingMoves(g) == if KingsideOpen(g) || QueensideOpen(g) then Failure(ValueError) else Success([])
  {
    KingsideSpec(g);
    QueensideSpec(g);
    ThenFailOrEmpty(KingsideCastle(g), QueensideCastle(g), KingsideOpen(g), QueensideOpen(g), ValueError);
  }

  lemma CastlingWithKing(g: FOWChess, mv: Move)
    requires Meets(g.special.castlingKings, Our(g)) && Meets(g.special.castlingRooks, Our(g)) && OurKing(g) != 0
    ensures CastlingMoves(g).Success?
    ensures mv in CastlingMoves(g).value <==> KingsideMoveOf(g, mv) || QueensideMoveOf(g, mv)
  {
    KingsideWithKing(g);
    QueensideWithKing(g);
    ThenOneOrNone(KingsideCastle(g), QueensideCastle(g), KingsideAllowed(g), QueensideAllowed(g),
      KingsideMove(g), QueensideMove(g), mv);
  }

  /** With a king, the kingside castling yields its one move or nothing. */
  lemma KingsideWithKing(g: FOWChess)
    requires OurKing(g) != 0
    ensures KingsideCastle(g) == if KingsideAllowed(g) then Success([KingsideMove(g)]) else Success([])
  {
    KingsideSpec(g);
  }

  /** With a king, the queenside castling yields its one move or nothing. */
  lemma QueensideWithKing(g: FOWChess)
    requires OurKing(g) != 0
    ensures QueensideCastle(g) == if QueensideAllowed(g) then Success([QueensideMove(g)]) else Success([])
  {
    QueensideSpec(g);
  }

  /** Two parts that each raise or yield nothing raise when either does. */
  lemma ThenFailOrEmpty(a: Result<seq<Move>>, b: Result<seq<Move>>, fa: bool, fb: bool, e: Error)
    requires a == if fa then Failure(e) else Success([])
    requires b == if fb then Failure(e) else Success([])
    ensures Then(a, b) == if fa || fb then Failure(e) else Success([])
  {
  }

  /** Two parts that each yield one move or none yield the moves of both. */
  lemma ThenOneOrNone(a: Result<seq<Move>>, b: Result<seq<Move>>, ya: bool, yb: bool, ma: Move, mb: Move, mv: Move)
    requires a == if ya then Success([ma]) else Success([])
    requires b == if yb then Success([mb]) else Success([])
    ensures Then(a, b).Success?
    ensures mv in Then(a, b).value <==> (ya && mv == ma) || (yb && mv == mb)
  {
  }

  /** A move of the pawn section. */
  predicate PawnMoveOf(g: FOWChess, mv: Move)
  {
    PawnCaptureOf(g, mv) || SinglePushOf(g, mv) || DoublePushOf(g, mv) || PromotionOf(g, mv) || EnPassantOf(g, mv)
  }

  /**
   * The pawn section raises only on a white pawn standing on rank 8 (its
   * push leaves the board); otherwise it yields exactly the captures, pushes,
   * promotions and en-passant captures.
   */
  lemma PawnMovesSpec(g: FOWChess, mv: Move)
    ensures PawnMoves(g).Failure? <==> PushesOffBoard(g)
    ensures PawnMoves(g).Success? ==> (mv in PawnMoves(g).value <==> PawnMoveOf(g, mv))
  {
    if OurPawns(g) == 0 {
      NoPawnMoves(g, mv);
    } else {
      var caps := FlatMap(SquaresOf(OurPawns(g)), (frm: Square) => PawnCapturesFrom(g, frm));
      var single, double := SinglePushMoves(g), DoublePushMoves(g);
      var rest := PromotionMoves(g) + EnPassantMoves(g);
      assert PawnMoves(g) == Then(Success(caps), Then(single, Then(double, Success(rest))));
      PawnCapturesSpec(g, mv);
      SinglePushSpec(g, mv);
      DoublePushSpec(g, mv);
      PromotionSpec(g, mv);
      EnPassantSpec(g, mv);
    }
  }

  /** Without pawns there is no pawn move and nothing on the eighth rank. */
  lemma NoPawnMoves(g: FOWChess, mv: Move)
    requires OurPawns(g) == 0
    ensures !PushesOffBoard(g) && !PawnMoveOf(g, mv)
  {
    assert !Has(OurPawns(g), mv.frm);
  }

  /** A move the generator yields: a non-pawn move, a castling move or a pawn move. */
  predicate GeneratedMove(g: FOWChess, mv: Move)
  {
    NonPawnMoveOf(g, mv) || CastleOf(g, mv) || PawnMoveOf(g, mv)
  }

  /**
   * `possible_moves_list`: it raises exactly when one of its sections does,
   * and otherwise lists exactly the moves each section describes.
   */
  lemma PossibleMovesSpec(g: FOWChess, mv: Move)
    ensures PossibleMoves(g).Failure? <==>
      NonPawnMoves(g).Failure? || CastlingMoves(g).Failure? || PushesOffBoard(g)
    ensures PossibleMoves(g).Success? ==> (mv in PossibleMoves(g).value <==> GeneratedMove(g, mv))
  {
    var np, cm, pm := NonPawnMoves(g), CastlingMoves(g), PawnMoves(g);
    assert PossibleMoves(g) == Then(np, Then(cm, pm));
    if np.Success? {
      NonPawnMovesSpec(g, mv);
    }
    CastlingMovesSpec(g, mv);
    PawnMovesSpec(g, mv);
  }

  /**
   * Every generated move can be applied to the position: only castling names
   * a rook target, and it names the rook's origin with it.
   */
  lemma GeneratedApplicable(g: FOWChess, mv: Move)
    requires PossibleMoves(g).Success? && mv in PossibleMoves(g).value
    ensures Position.Applicable(mv)
  {
    PossibleMovesSpec(g, mv);
    assert GeneratedMove(g, mv);
    if CastleOf(g, mv) {
      CastleApplicable(g, mv);
    } else if PawnMoveOf(g, mv) {
      PawnMoveApplicable(g, mv);
    }
  }

  lemma CastleApplicable(g: FOWChess, mv: Move)
    requires CastleOf(g, mv)
    ensures Position.Applicable(mv)
  {
    if KingsideMoveOf(g, mv) {
      assert mv == KingsideMove(g);
    } else {
      assert mv == QueensideMove(g);
    }
  }

  lemma PawnMoveApplicable(g: FOWChess, mv: Move)
    requires PawnMoveOf(g, mv)
    ensures Position.Applicable(mv)
  {
    if PromotionOf(g, mv) {
      assert PromotesInPlace(g.turn, mv);
    }
  }

  // ---------------------------------------------------------------------
  // What the tests on castling and promotion let through.

  /**
   * The kingside emptiness test passes with f empty and g occupied: with
   * the king and rook rights held, a king of the mover on the board and
   * nothing attacked, the generator offers the castle onto the occupied g
   * square.
   */
  lemma CastlingOntoOccupiedSquare(g: FOWChess)
    requires Meets(g.special.castlingKings, Our(g)) && Meets(Special.KingsideCastling(g.special), Our(g))
    requires OurKing(g) != 0
    requires !Has(Everyone(g), HomeSquare(g, 6)) && Has(Everyone(g), HomeSquare(g, 7))
    requires KingPathSafe(g, HomeSquare(g, 6), HomeSquare(g, 7))
    ensures CastlingMoves(g).Success?
    ensures KingsideMove(g) in CastlingMoves(g).value
  {
    SpecialRights(g);
    assert KingsideAllowed(g);
    CastlingWithKing(g, KingsideMove(g));
  }

  /** A held kingside rook right is a held rook right. */
  lemma SpecialRights(g: FOWChess)
    ensures Meets(Special.KingsideCastling(g.special), Our(g)) ==> Meets(g.special.castlingRooks, Our(g))
    ensures Meets(Special.QueensideCastling(g.special), Our(g)) ==> Meets(g.special.castlingRooks, Our(g))
  {
  }

  /**
   * The promotion section looks at the mover's own back rank: a white pawn
   * on the seventh rank, or anywhere off rank 1, is offered no promotion.
   */
  lemma NoPromotionOffOwnBackRank(g: FOWChess)
    requires !Meets(BackRank(g.turn), OurPawns(g))
    ensures PromotionMoves(g) == []
  {
  }

  /**
   * And a white pawn that does reach rank 8 never gets that far: pushing it
   * shifts a bit past h8 and the pawn section raises.
   */
  lemma WhitePawnOnLastRankRaises(g: FOWChess)
    requires g.turn && Meets(OurPawns(g), RankMask(8))
    ensures PawnMoves(g).Failure? && PossibleMoves(g).Failure?
  {
    PawnMovesSpec(g, SimpleMove(A1, A1));
    PossibleMovesSpec(g, SimpleMove(A1, A1));
  }
}
