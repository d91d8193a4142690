/**
 * The earlier draft of the game state (fog_of_war_chess.py): the position of
 * the bitboard-collections module, the side to move and the special
 * bitboards, with no move counter. Its scan (helper_functions.py) yields bit
 * positions, plain integers, and several of its sections use those as if
 * they were squares or masks; what that does is modelled here.
 */
module DraftGame {
  import opened Wrappers
  import opened Squares
  import opened Bitboards
  import opened BitScan
  import opened Moves
  import Position
  import Special
  import Collections
  import Game
  import Attacks

  type ChessBitboards = Position.ChessBitboards
  type SpecialMoveBitboards = Special.SpecialMoveBitboards

  datatype DraftFOWChess = DraftFOWChess(
    bitboards: ChessBitboards,
    turn: bool,
    special: SpecialMoveBitboards)

  /** The package state holding the same position, side and rights, with a given half-move count. */
  function Lift(g: DraftFOWChess, halfMove: int): (r: Game.FOWChess)
    ensures r.bitboards == g.bitboards && r.turn == g.turn && r.special == g.special
    ensures r.halfMove == halfMove
  {
    Game.FOWChess(g.bitboards, g.turn, g.special, halfMove)
  }

  /** `new_game`: the collections module's layout (queen on d4), white to move, all rights. */
  function NewGame(): DraftFOWChess
  {
    DraftFOWChess(Collections.NewGameAsWritten(), Game.White, Special.NewGame())
  }

  /** The draft starts from the package's state except for the white queen, and with no counter. */
  lemma NewGameAgainstPackage()
    ensures Lift(NewGame(), 0) == Game.NewGame().(bitboards := Collections.NewGameAsWritten())
    ensures Lift(NewGame(), 0) != Game.NewGame()
  {
    Collections.NewGameAsWrittenMisplacesQueen();
  }

  // ---------------------------------------------------------------------
  // make_move

  /**
   * `make_move`: the collections module's `make_move` on the position, the
   * other side to move, and the special bitboards updated from the parent's
   * position.
   */
  function MakeMove(g: DraftFOWChess, m: Move): Result<DraftFOWChess>
  {
    match Collections.MakeMove(g.bitboards, m)
    case Failure(e) => Failure(e)
    case Success(after) => Success(DraftFOWChess(after, !g.turn, Special.Update(g.special, g.bitboards, m)))
  }

  /**
   * Whatever the package's half-move count, the draft's move is the
   * package's `from_fow` with the counter left out: the same position, side
   * and rights, and it fails on the same moves (with a TypeError where the
   * package raises a KeyError).
   */
  lemma MakeMoveIsFromFow(g: DraftFOWChess, halfMove: int, m: Move)
    ensures MakeMove(g, m).Success? <==> Game.FromFow(Lift(g, halfMove), m).Success?
    ensures MakeMove(g, m).Failure? ==> MakeMove(g, m).error == TypeError
    ensures MakeMove(g, m).Success? ==>
      Lift(MakeMove(g, m).value, halfMove + 1) == Game.FromFow(Lift(g, halfMove), m).value
  {
  }

  /** Two moves bring the same side back to move. */
  lemma TwoPlies(g: DraftFOWChess, m1: Move, m2: Move)
    requires MakeMove(g, m1).Success? && MakeMove(MakeMove(g, m1).value, m2).Success?
    ensures MakeMove(MakeMove(g, m1).value, m2).value.turn == g.turn
  {
  }

  // ---------------------------------------------------------------------
  // is_over

  /** Python's `sum` over the yielded bit positions. */
  function Sum(bits: seq<BitIndex>): (r: nat)
    ensures bits != [] ==> r >= bits[0] as nat
  {
    if bits == [] then 0 else bits[0] as nat + Sum(bits[1..])
  }

  /** `is_over` as written: the positions of the king bits add up to 1. */
  predicate IsOverAsWritten(g: DraftFOWChess)
  {
    Sum(SetBits(g.bitboards.kings)) == 1
  }

  /** Strictly descending bit positions add up to 1 exactly when they are 1 alone or 1 then 0. */
  lemma SumIsOne(bits: seq<BitIndex>)
    requires forall k, j :: 0 <= k < j < |bits| ==> bits[k] > bits[j]
    ensures Sum(bits) == 1 <==> 1 in bits && forall k :: 0 <= k < |bits| ==> bits[k] <= 1
  {
    if bits != [] {
      var rest := bits[1..];
      if bits[0] == 1 {
        assert forall k :: 0 <= k < |rest| ==> rest[k] == 0;
        assert |rest| <= 1;
        assert Sum(rest) == 0 by {
          if rest != [] {
            assert rest[1..] == [];
          }
        }
      } else if bits[0] == 0 {
        assert rest == [];
      }
    }
  }

  /**
   * So the draft's game is over exactly when a king stands on b1 (bit 1)
   * and on no square other than a1 and b1: a sum of positions, not a count
   * of kings.
   */
  lemma IsOverAsWrittenKings(g: DraftFOWChess)
    ensures IsOverAsWritten(g) <==>
      Has(g.bitboards.kings, B1) && forall s: Square :: Has(g.bitboards.kings, s) ==> s <= B1
  {
    var kings := g.bitboards.kings;
    PositionsDescending(BitsOf(kings), Width);
    SumIsOne(SetBits(kings));
    SetBitsMembers(kings, 1);
    HasIsBit(kings, B1);
    LowBitsFromSquares(kings);
    LowSquaresFromBits(kings);
  }

  /** Bits all at most 1 mean squares all at most b1. */
  lemma LowSquaresFromBits(kings: Bitboard)
    ensures (forall k :: 0 <= k < |SetBits(kings)| ==> SetBits(kings)[k] <= 1) ==>
      forall s: Square :: Has(kings, s) ==> s <= B1
  {
    var bits := SetBits(kings);
    if forall k :: 0 <= k < |bits| ==> bits[k] <= 1 {
      forall s: Square | Has(kings, s)
        ensures s <= B1
      {
        HasIsBit(kings, s);
        SetBitsMembers(kings, s - 1);
        var k :| 0 <= k < |bits| && bits[k] == s - 1;
      }
    }
  }

  /** Squares all at most b1 mean bits all at most 1. */
  lemma LowBitsFromSquares(kings: Bitboard)
    ensures (forall s: Square :: Has(kings, s) ==> s <= B1) ==>
      forall k :: 0 <= k < |SetBits(kings)| ==> SetBits(kings)[k] <= 1
  {
    var bits := SetBits(kings);
    if forall s: Square :: Has(kings, s) ==> s <= B1 {
      forall k | 0 <= k < |bits|
        ensures bits[k] <= 1
      {
        SetBitsMembers(kings, bits[k]);
        HasIsBit(kings, SquareOfBit(bits[k]));
      }
    }
  }

  /** Kings on a1 and b1: the draft's game is over, the package's is not. */
  lemma IsOverAsWrittenTwoKings(g: DraftFOWChess)
    requires g.bitboards.kings == FromSquare(A1) | FromSquare(B1)
    ensures IsOverAsWritten(g)
    ensures !Game.IsOver(Lift(g, 0))
  {
    IsOverAsWrittenKings(g);
    Game.IsOverOneKing(Lift(g, 0));
  }

  /** A lone king on e1: the package's game is over, the draft's is not. */
  lemma IsOverAsWrittenLoneKing(g: DraftFOWChess)
    requires g.bitboards.kings == FromSquare(E1)
    ensures !IsOverAsWritten(g)
    ensures Game.IsOver(Lift(g, 0))
  {
    IsOverAsWrittenKings(g);
    Game.IsOverOneKing(Lift(g, 0));
  }

  // ---------------------------------------------------------------------
  // winner

  /**
   * `winner`, the test the package copies: None while both colours or
   * neither have a king, else the colour that still has one. Two equal
   * bitboards give None, and two different non-empty ones fall through
   * every test, which returns None as well.
   */
  function Winner(g: DraftFOWChess): (r: Option<bool>)
    ensures var w := g.bitboards.white & g.bitboards.kings; var b := g.bitboards.black & g.bitboards.kings;
      && (r == Some(Game.Black) <==> w == 0 && b != 0)
      && (r == Some(Game.White) <==> b == 0 && w != 0)
      && (r == None <==> (w == 0 <==> b == 0))
  {
    var white := g.bitboards.white & g.bitboards.kings;
    var black := g.bitboards.black & g.bitboards.kings;
    if white == black then None
    else if white == 0 then Some(Game.Black)
    else if black == 0 then Some(Game.White)
    else None
  }

  // ---------------------------------------------------------------------
  // possible_moves_generator

  /**
   * The first loop as written: each origin is a bit position, an integer,
   * and `piece_at` looks it up in the square-mask table, which is keyed by
   * `Square` members, so the first origin raises a KeyError. With no origin
   * the loop yields nothing.
   */
  function NonPawnMovesAsWritten(g: DraftFOWChess): (r: Result<seq<Move>>)
    ensures r.Failure? <==> Game.Our(Lift(g, 0)) & !g.bitboards.pawns != 0
  {
    if Game.Our(Lift(g, 0)) & !g.bitboards.pawns == 0 then Success([]) else Failure(KeyError)
  }

  /** A mover with a king that is not also on the pawn board makes the first loop raise. */
  lemma NonPawnMovesRaiseWithKing(g: DraftFOWChess, s: Square)
    requires Has(Game.Our(Lift(g, 0)) & g.bitboards.kings, s) && !Has(g.bitboards.pawns, s)
    ensures NonPawnMovesAsWritten(g) == Failure(KeyError)
  {
    var origins := Game.Our(Lift(g, 0)) & !g.bitboards.pawns;
    AndHas(Game.Our(Lift(g, 0)), g.bitboards.kings, s);
    AndNotHas(Game.Our(Lift(g, 0)), g.bitboards.pawns, s);
    if origins == 0 {
      EmptyHasNothing(s);
    }
  }

  /** So from the start the draft's move list raises; the package's yields the moves. */
  lemma StartRaises()
    ensures NonPawnMovesAsWritten(NewGame()) == Failure(KeyError)
  {
    NonPawnMovesRaiseWithKing(NewGame(), E1);
  }

  /**
   * The target mask of the first loop, for the square the origin stands
   * for: the piece's moves less the mover's own pieces.
   */
  function NonPawnTargets(g: DraftFOWChess, frm: Square): Result<Bitboard>
  {
    Game.NonPawnTargets(Lift(g, 0), frm)
  }

  /** A target is never a square of the mover's own. */
  lemma NonPawnTargetsNotOwn(g: DraftFOWChess, frm: Square, t: Square)
    requires NonPawnTargets(g, frm).Success? && Has(NonPawnTargets(g, frm).value, t)
    ensures !Has(Game.Our(Lift(g, 0)), t)
  {
    var h := Lift(g, 0);
    match Position.PieceAt(h.bitboards, frm)
    case Success(None) => EmptyHasNothing(t);
    case Success(Some(p)) => NotAndHas(Game.Our(h), Attacks.NonPawnMoveMask(frm, p, Game.Everyone(h)), t);
  }

  /** The single pushes, as in the package. */
  function SinglePushes(g: DraftFOWChess): Bitboard
  {
    Game.SinglePushes(Lift(g, 0))
  }

  /**
   * The double pushes as written: white's as in the package, onto rank 4;
   * black's second step is masked with rank 6 instead of rank 5.
   */
  function DoublePushes(g: DraftFOWChess): Bitboard
  {
    var everyone := Game.Everyone(Lift(g, 0));
    if g.turn then (SinglePushes(g) << 8) & RankMask(4) & !everyone
    else (SinglePushes(g) >> 8) & RankMask(6) & !everyone
  }

  /** White's double pushes are the package's. */
  lemma WhiteDoublePushesAgree(g: DraftFOWChess)
    requires g.turn
    ensures DoublePushes(g) == Game.DoublePushes(Lift(g, 0))
  {
  }

  /**
   * A black double push as written lands on rank 6 over an empty square of
   * rank 7, so it needs a black pawn on rank 8: one never stands there in a
   * game, and black's double pushes from rank 7 are all lost.
   */
  lemma BlackDoublePushNeedsRank8(g: DraftFOWChess, t: Square)
    requires !g.turn && Has(DoublePushes(g), t)
    ensures Rank(t) == 6 && t <= 48 && Has(Game.OurPawns(Lift(g, 0)), t + 16) && Rank(t + 16) == 8
  {
    var h := Lift(g, 0);
    Game.DoubleDownHas(DoublePushes(g), SinglePushes(g), 6, Game.Everyone(h), t);
    Game.SinglePushHas(h, t + 8);
  }

  /** From the start, black to move: the draft allows no double push, the package all eight onto rank 5. */
  lemma BlackDoublePushesFromStart()
    ensures DoublePushes(NewGame().(turn := Game.Black)) == 0
    ensures Game.DoublePushes(Lift(NewGame().(turn := Game.Black), 0)) == RankMask(5)
  {
  }

  /**
   * One push as written, for the bit position `i` of its target:
   * `Move(Square(i.bit_length()), Square((i << shift).bit_length()))`.
   * The bit length of a position is no square number the scan meant.
   */
  function PushMoveAsWritten(i: BitIndex, shift: nat): (r: Result<Move>)
    requires shift == 8 || shift == 16
    ensures r.Failure? <==> i == 0
    ensures r.Failure? ==> r.error == ValueError
  {
    var toLength := BitLengthNat(i as nat);
    var frmLength := BitLengthNat(Shifted(i as nat, shift));
    PushLengths(i, shift);
    match SquareOfValue(toLength)
    case Failure(e) => Failure(e)
    case Success(to) =>
      match SquareOfValue(frmLength)
      case Failure(e) => Failure(e)
      case Success(frm) => Success(SimpleMove(to, frm))
  }

  /** The two bit lengths of a push: at most 6 for the target, that plus the shift for the origin. */
  lemma PushLengths(i: BitIndex, shift: nat)
    requires shift == 8 || shift == 16
    ensures BitLengthNat(i as nat) <= 6
    ensures BitLengthNat(i as nat) <= i as nat
    ensures i == 0 <==> BitLengthNat(i as nat) == 0
    ensures i != 0 ==> BitLengthNat(Shifted(i as nat, shift)) == BitLengthNat(i as nat) + shift
  {
    BitLengthBelow(i as nat);
    assert Pow2(6) == 64;
    BitLengthBound(i as nat, 6);
    BitLengthShift(i as nat, shift);
  }

  /** Python's `n << k` on a non-negative integer: no bit is dropped. */
  function Shifted(n: nat, k: nat): nat
  {
    n * Pow2(k)
  }

  /** Python's bit length of a number is at most the number, and positive for a positive one. */
  lemma {:induction false} BitLengthBelow(n: nat)
    ensures BitLengthNat(n) <= n
    ensures n > 0 ==> BitLengthNat(n) > 0
    decreases n
  {
    if n > 0 {
      BitLengthBelow(n / 2);
    }
  }

  /** Shifting a positive number left by k bits adds k to its bit length. */
  lemma {:induction false} BitLengthShift(n: nat, k: nat)
    ensures n > 0 ==> BitLengthNat(Shifted(n, k)) == BitLengthNat(n) + k
  {
    if n > 0 && k > 0 {
      BitLengthShift(n, k - 1);
      var m := Shifted(n, k - 1);
      assert Shifted(n, k) == 2 * m;
      assert (2 * m) / 2 == m;
    }
  }

  /**
   * Every push as written goes to a square below the one the bit stands for,
   * and comes from `shift` squares above that: a white pawn is sent
   * backwards.
   */
  lemma PushMoveAsWrittenWrong(i: BitIndex, shift: nat)
    requires shift == 8 || shift == 16
    requires PushMoveAsWritten(i, shift).Success?
    ensures PushMoveAsWritten(i, shift).value.to as int <= i as int < SquareOfBit(i) as int
    ensures PushMoveAsWritten(i, shift).value.frm as int == PushMoveAsWritten(i, shift).value.to as int + shift
  {
    PushLengths(i, shift);
  }

  /** White's e2-e3, target bit 20, comes out as e2 to e1; a push onto a1 raises. */
  lemma PushMoveAsWrittenExamples()
    ensures PushMoveAsWritten(E3 - 1, 8) == Success(SimpleMove(E1, E2))
    ensures PushMoveAsWritten(A1 - 1, 8) == Failure(ValueError)
  {
    assert Pow2(8) == 256 by {
      assert Pow2(4) == 16;
    }
    assert BitLengthNat(20) == 5;
    assert BitLengthNat(5120) == 13;
  }

  // ---------------------------------------------------------------------
  // _visible_squares

  /**
   * `_visible_squares` as written: its first fold runs `piece_at` on a bit
   * position, which raises a KeyError at the first non-pawn piece; with none
   * the fold is empty and `reduce` raises a TypeError. Either way no
   * bitboard comes back.
   */
  function VisibleAsWritten(g: DraftFOWChess, color: bool): (r: Result<Bitboard>)
    ensures r.Failure?
    ensures r.error == KeyError <==> Game.OccupiedByColor(Lift(g, 0), color) & !g.bitboards.pawns != 0
  {
    if Game.OccupiedByColor(Lift(g, 0), color) & !g.bitboards.pawns != 0 then Failure(KeyError)
    else Failure(TypeError)
  }
}
